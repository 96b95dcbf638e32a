/**
 * The markup normaliser (`fixLinks`), the hit-point formula spacing, the cantrip dice rewrite and
 * the quote substitution of `serialiseFixer`, written as token scanners.
 *
 * Each rewrite of the source is a global (or, without the global flag, first-occurrence)
 * regular-expression replacement. Here every such expression is a `Matcher`: a function that
 * decides whether a match STARTS at the front of a string and, if so, what replaces it and how
 * many characters it consumes. `ReplaceAll` then scans left to right exactly as a global
 * replacement does: at a match it emits the replacement and resumes after the consumed text,
 * otherwise it copies one character and tries the next position.
 *
 * Where an expression can backtrack, its matcher computes the match that the leftmost-greedy
 * search finds; the comment on each matcher explains why that match is the one computed.
 */
module Markup {
  import opened Wrappers
  import opened Text

  /** What replaces a match, and how many characters the match consumes. */
  datatype Match = Match(rep: string, len: nat)

  /** Whether a match starts at the front of a text, and if so what replaces it. */
  type Matcher = string -> Option<Match>

  /** A match consumes at least one character and no more than the text holds. */
  ghost predicate Consumes(m: Matcher) {
    forall t :: m(t).Some? ==> 0 < m(t).value.len <= |t|
  }

  /** A global replacement: every match, scanning left to right, never overlapping. */
  function ReplaceAll(m: Matcher, t: string): string
    requires Consumes(m)
    decreases |t|
  {
    if t == [] then []
    else match m(t)
      case Some(r) => r.rep + ReplaceAll(m, t[r.len..])
      case None => [t[0]] + ReplaceAll(m, t[1..])
  }

  /** A replacement without the global flag: the leftmost match only. */
  function ReplaceFirst(m: Matcher, t: string): string
    requires Consumes(m)
    decreases |t|
  {
    if t == [] then []
    else match m(t)
      case Some(r) => r.rep + t[r.len..]
      case None => [t[0]] + ReplaceFirst(m, t[1..])
  }

  const FilterOpen: string := "{@filter "
  const HitOpen: string := "{@hit "
  const ChanceOpen: string := "{@chance "

  const RightSingleQuote: char := '\U{2019}'
  const LeftDoubleQuote: char := '\U{201C}'
  const RightDoubleQuote: char := '\U{201D}'

  predicate IsSign(c: char) { c == '+' || c == '-' }

  /** Length of the run of word characters at the start of `s`. */
  function WordRun(s: string): (n: nat)
    ensures n <= |s|
    ensures n < |s| ==> !IsWordChar(s[n])
  {
    if s != [] && IsWordChar(s[0]) then 1 + WordRun(s[1..]) else 0
  }

  /**
   * A group that ends before index `e` can be followed by one or more characters other than "}"
   * and then a "}": `t[e]` is not "}" and a "}" occurs after it.
   */
  predicate ClosesAfter(t: string, e: nat) {
    e < |t| && t[e] != '}' && e + 1 + IndexOf(t[e + 1..], '}') < |t|
  }

  /**
   * The largest end `k` in `(q, e]` of a greedy group that `ClosesAfter` accepts: a greedy
   * quantifier tries its longest extent first and gives back one character at a time.
   */
  function GreedyEnd(t: string, q: nat, e: nat): (r: Option<nat>)
    ensures r.Some? ==> q < r.value <= e && ClosesAfter(t, r.value)
    decreases e
  {
    if e <= q then None
    else if ClosesAfter(t, e) then Some(e)
    else GreedyEnd(t, q, e - 1)
  }

  /** The greedy group takes the largest end that works, and fails only when none does. */
  lemma {:induction false} GreedyEndIsLargest(t: string, q: nat, e: nat)
    ensures GreedyEnd(t, q, e).Some? ==> forall k :: GreedyEnd(t, q, e).value < k <= e ==> !ClosesAfter(t, k)
    ensures GreedyEnd(t, q, e).None? ==> forall k :: q < k <= e ==> !ClosesAfter(t, k)
    decreases e
  {
    if e > q && !ClosesAfter(t, e) {
      GreedyEndIsLargest(t, q, e - 1);
    }
  }

  /**
   * Parts of a tag body: at most `k` blocks, each one or more characters other than "|"
   * optionally followed by one "|". A longest first block never needs more blocks than a
   * shorter one, so taking runs whole decides the question.
   */
  predicate TagBlocks(g: string, k: nat)
    decreases |g|
  {
    g == [] || (k > 0 && g[0] != '|' && (IndexOf(g, '|') == |g| || TagBlocks(g[IndexOf(g, '|') + 1..], k - 1)))
  }

  /**
   * Where the body of a tag starts and where its closing "}" is: "{@", a name of word characters,
   * a space, then the body up to the first "}".
   */
  function TagSpan(t: string): (r: Option<(nat, nat)>)
    ensures r.Some? ==> r.value.0 <= r.value.1 < |t|
  {
    if |t| < 2 || t[0] != '{' || t[1] != '@' then None
    else
      var w := WordRun(t[2..]);
      if w == 0 || 2 + w >= |t| || t[2 + w] != ' ' then None
      else
        var q := 3 + w;
        var f := q + IndexOf(t[q..], '}');
        if f < |t| then Some((q, f)) else None
  }

  /**
   * The end `e` of a greedy group that starts at `q` and may end no later than `m`, and the "}"
   * at `f` that closes the token after it.
   */
  function GreedySpan(t: string, q: nat, m: nat): (r: Option<(nat, nat)>)
    ensures r.Some? ==> q < r.value.0 < r.value.1 < |t|
  {
    match GreedyEnd(t, q, m)
    case None => None
    case Some(e) => Some((e, e + 1 + IndexOf(t[e + 1..], '}')))
  }

  /** The part of a tag body that replaces the tag: the third of three, otherwise the first. */
  function TagPick(parts: seq<string>): string
    requires |parts| > 0
  {
    if |parts| == 3 then parts[2] else parts[0]
  }

  /** A tag whose body is `g` and which spans `len` characters: matched when the body has at most three parts. */
  function TagResult(g: string, len: nat): Option<Match> {
    if TagBlocks(g, 3) then Some(Match(TagPick(Split(g, '|')), len)) else None
  }

  /**
   * "{@filter ", a label of characters other than "|", then one or more characters other than
   * "}" and a "}": the label replaces the token. The label is the longest run without "|" that
   * still leaves a non-empty run before a "}".
   */
  function MatchFilter(t: string): (r: Option<Match>)
    ensures r.Some? ==> 0 < r.value.len <= |t|
  {
    if !(FilterOpen <= t) then None
    else
      var q := |FilterOpen|;
      match GreedySpan(t, q, q + IndexOf(t[q..], '|'))
      case None => None
      case Some((e, f)) => Some(Match(t[q..e], f + 1))
  }

  /** "{@hit ", digits, "}": a plus sign and the digits replace the token. */
  function MatchHit(t: string): (r: Option<Match>)
    ensures r.Some? ==> 0 < r.value.len <= |t|
  {
    if !(HitOpen <= t) then None
    else
      var q := |HitOpen|;
      var n := DigitRun(t[q..]);
      if n > 0 && q + n < |t| && t[q + n] == '}' then Some(Match("+" + t[q..q + n], q + n + 1))
      else None
  }

  /**
   * "{@chance ", digits, then one or more characters other than "}" and a "}": the digits and
   * " percent" replace the token. The digits give back characters until a non-empty run before
   * a "}" remains.
   */
  function MatchChance(t: string): (r: Option<Match>)
    ensures r.Some? ==> 0 < r.value.len <= |t|
  {
    if !(ChanceOpen <= t) then None
    else
      var q := |ChanceOpen|;
      match GreedySpan(t, q, q + DigitRun(t[q..]))
      case None => None
      case Some((e, f)) => Some(Match(t[q..e] + " percent", f + 1))
  }

  /**
   * "{@", a name of word characters, a space, a body of at most three "|"-separated parts without
   * "}", and a "}". The body cannot contain "}", so it ends at the first "}".
   */
  function MatchTag(t: string): (r: Option<Match>)
    ensures r.Some? ==> 0 < r.value.len <= |t|
  {
    match TagSpan(t)
    case None => None
    case Some((q, f)) => TagResult(t[q..f], f + 1)
  }
  /** "d", digits, a sign, a digit: spaces go around the sign. */
  function MatchDiceSpacing(t: string): (r: Option<Match>)
    ensures r.Some? ==> 0 < r.value.len <= |t|
  {
    if t == [] || t[0] != 'd' then None
    else
      var n := DigitRun(t[1..]);
      if n > 0 && 2 + n < |t| && IsSign(t[1 + n]) && IsDigit(t[2 + n]) then
        Some(Match(t[..1 + n] + " " + [t[1 + n]] + " " + [t[2 + n]], 3 + n))
      else None
  }

  /** A digit, a sign, a digit: spaces go around the sign. */
  function MatchDigitSpacing(t: string): (r: Option<Match>)
    ensures r.Some? ==> 0 < r.value.len <= |t|
  {
    if |t| >= 3 && IsDigit(t[0]) && IsSign(t[1]) && IsDigit(t[2]) then
      Some(Match([t[0]] + " " + [t[1]] + " " + [t[2]], 3))
    else None
  }

  /**
   * Digits, "d", digits: the dice count is dropped. The leading digits cannot give anything back
   * to the "d", so the match is the whole digit run, the "d" and the whole run after it.
   */
  function MatchDiceCount(t: string): (r: Option<Match>)
    ensures r.Some? ==> 0 < r.value.len <= |t|
  {
    var n := DigitRun(t);
    if n > 0 && n + 1 < |t| && t[n] == 'd' && IsDigit(t[n + 1]) then
      var s := DigitRun(t[n + 1..]);
      Some(Match(t[n..n + 1 + s], n + 1 + s))
    else None
  }

  /** A straight apostrophe becomes a right single quotation mark. */
  function MatchApostrophe(t: string): (r: Option<Match>)
    ensures r.Some? ==> 0 < r.value.len <= |t|
  {
    if t != [] && t[0] == '\'' then Some(Match([RightSingleQuote], 1)) else None
  }

  /** White space or "(", a double quote, a word character: the quote becomes a left one. */
  function MatchOpenQuote(t: string): (r: Option<Match>)
    ensures r.Some? ==> 0 < r.value.len <= |t|
  {
    if |t| >= 3 && (IsSpace(t[0]) || t[0] == '(') && t[1] == '"' && IsWordChar(t[2]) then
      Some(Match([t[0], LeftDoubleQuote, t[2]], 3))
    else None
  }

  /** A word character, "," or ".", then a double quote: the quote becomes a right one. */
  function MatchCloseQuote(t: string): (r: Option<Match>)
    ensures r.Some? ==> 0 < r.value.len <= |t|
  {
    if |t| >= 2 && (IsWordChar(t[0]) || t[0] == ',' || t[0] == '.') && t[1] == '"' then
      Some(Match([t[0], RightDoubleQuote], 2))
    else None
  }

  /** `fixLinks`: the five rewrites, in the source's order. */
  function FixLinks(s: string): string {
    var s1 := ReplaceAll(MatchFilter, s);
    var s2 := ReplaceAll(MatchHit, s1);
    var s3 := ReplaceAll(MatchChance, s2);
    var s4 := ReplaceAll(MatchTag, s3);
    ReplaceAll(MatchDiceSpacing, s4)
  }

  /** The string branch of `serialiseFixer`: typographic quotes in place of straight ones. */
  function SerialiseText(s: string): string {
    ReplaceAll(MatchCloseQuote, ReplaceAll(MatchOpenQuote, ReplaceAll(MatchApostrophe, s)))
  }

  // ---------------------------------------------------------------------------------------------
  // Scanning lemmas

  /** A prefix in which no match starts is copied, and the scan goes on after it. */
  lemma {:induction false} ReplaceAllCopies(m: Matcher, s: string, k: nat)
    requires Consumes(m) && k <= |s|
    requires forall i :: 0 <= i < k ==> m(s[i..]).None?
    ensures ReplaceAll(m, s) == s[..k] + ReplaceAll(m, s[k..])
    decreases k
  {
    if k == 0 {
      assert s[..0] == [] && s[0..] == s;
    } else {
      assert m(s).None? by { assert s[0..] == s; }
      forall i | 0 <= i < k - 1 ensures m(s[1..][i..]).None? {
        assert s[1..][i..] == s[i + 1..];
      }
      ReplaceAllCopies(m, s[1..], k - 1);
      SliceAfterFirst(s, k);
      ConsAssoc(s[0], s[..k][1..], ReplaceAll(m, s[k..]));
    }
  }

  /** Without the global flag: a prefix in which no match starts is copied, and the search goes on after it. */
  lemma {:induction false} ReplaceFirstCopies(m: Matcher, s: string, k: nat)
    requires Consumes(m) && k <= |s|
    requires forall i :: 0 <= i < k ==> m(s[i..]).None?
    ensures ReplaceFirst(m, s) == s[..k] + ReplaceFirst(m, s[k..])
    decreases k
  {
    if k == 0 {
      assert s[..0] == [] && s[0..] == s;
    } else {
      assert m(s).None? by { assert s[0..] == s; }
      forall i | 0 <= i < k - 1 ensures m(s[1..][i..]).None? {
        assert s[1..][i..] == s[i + 1..];
      }
      ReplaceFirstCopies(m, s[1..], k - 1);
      SliceAfterFirst(s, k);
      ConsAssoc(s[0], s[..k][1..], ReplaceFirst(m, s[k..]));
    }
  }

  /** A scan that finds no match anywhere returns its input. */
  lemma ReplaceAllWithoutMatch(m: Matcher, t: string)
    requires Consumes(m)
    requires forall k :: 0 <= k < |t| ==> m(t[k..]).None?
    ensures ReplaceAll(m, t) == t
  {
    ReplaceAllCopies(m, t, |t|);
    assert t[..|t|] == t && t[|t|..] == [];
  }

  /** A scan resumes after a match at the front. */
  lemma ReplaceAllAtMatch(m: Matcher, t: string, rest: string)
    requires Consumes(m)
    requires m(t + rest).Some? && m(t + rest).value.len == |t|
    ensures ReplaceAll(m, t + rest) == m(t + rest).value.rep + ReplaceAll(m, rest)
  {
    assert (t + rest)[|t|..] == rest;
  }

  /** The matcher only matches at a "{". */
  ghost predicate NeedsBrace(m: Matcher) {
    forall t :: t != [] && t[0] != '{' ==> m(t).None?
  }

  /** The four markup rewrites only match at a "{". */
  lemma MarkupNeedsBrace()
    ensures NeedsBrace(MatchFilter) && NeedsBrace(MatchHit) && NeedsBrace(MatchChance) && NeedsBrace(MatchTag)
  {
    forall t | t != [] && t[0] != '{' ensures MatchFilter(t).None? {
      assert t[0] != FilterOpen[0];
    }
    forall t | t != [] && t[0] != '{' ensures MatchHit(t).None? {
      assert t[0] != HitOpen[0];
    }
    forall t | t != [] && t[0] != '{' ensures MatchChance(t).None? {
      assert t[0] != ChanceOpen[0];
    }
  }

  /** Text without "{" passes a markup rewrite unchanged. */
  lemma ReplaceAllWithoutBrace(m: Matcher, t: string)
    requires Consumes(m) && NeedsBrace(m) && '{' !in t
    ensures ReplaceAll(m, t) == t
  {
    forall k | 0 <= k < |t| ensures m(t[k..]).None? {
      assert t[k..][0] == t[k];
    }
    ReplaceAllWithoutMatch(m, t);
  }

  /** Markup-free text before a token is copied by a markup rewrite. */
  lemma ReplaceAllBraceFreePrefix(m: Matcher, pre: string, t: string)
    requires Consumes(m) && NeedsBrace(m) && '{' !in pre
    ensures ReplaceAll(m, pre + t) == pre + ReplaceAll(m, t)
  {
    var s := pre + t;
    forall i | 0 <= i < |pre| ensures m(s[i..]).None? {
      assert s[i..][0] == pre[i];
    }
    ReplaceAllCopies(m, s, |pre|);
    assert s[..|pre|] == pre;
    assert s[|pre|..] == t;
  }

  /** Text with its only "{" in front, where no match starts, is unchanged. */
  lemma ReplaceAllNoMatchAtFront(m: Matcher, t: string)
    requires Consumes(m) && NeedsBrace(m) && t != [] && m(t).None? && '{' !in t[1..]
    ensures ReplaceAll(m, t) == t
  {
    ReplaceAllWithoutBrace(m, t[1..]);
  }

  /** On text without markup, `fixLinks` only spaces out dice modifiers. */
  lemma FixLinksWithoutMarkup(s: string)
    requires '{' !in s
    ensures FixLinks(s) == ReplaceAll(MatchDiceSpacing, s)
  {
    MarkupNeedsBrace();
    ReplaceAllWithoutBrace(MatchFilter, s);
    ReplaceAllWithoutBrace(MatchHit, s);
    ReplaceAllWithoutBrace(MatchChance, s);
    ReplaceAllWithoutBrace(MatchTag, s);
  }

  /** Text with neither markup nor digits is left as it is. */
  lemma FixLinksPlain(s: string)
    requires '{' !in s && NoDigits(s)
    ensures FixLinks(s) == s
  {
    FixLinksWithoutMarkup(s);
    forall k | 0 <= k < |s| ensures MatchDiceSpacing(s[k..]).None? {
      var t := s[k..];
      if t != [] && t[0] == 'd' && |t| > 1 {
        assert t[1] == s[k + 1];
      }
    }
    ReplaceAllWithoutMatch(MatchDiceSpacing, s);
  }

  // ---------------------------------------------------------------------------------------------
  // The markup tokens
  //
  // Each token is first described by positions in the text (the "...At" lemmas), then by the
  // concatenation that spells it out (the "...Token" lemmas).

  /** The run of word characters ends at `n` when it is not continued there. */
  lemma {:induction false} WordRunAt(s: string, n: nat)
    requires n <= |s| && AllWordChars(s[..n]) && (n < |s| ==> !IsWordChar(s[n]))
    ensures WordRun(s) == n
    decreases n
  {
    if n > 0 {
      assert IsWordChar(s[..n][0]);
      assert s[1..][..n - 1] == s[..n][1..];
      WordRunAt(s[1..], n - 1);
    }
  }

  /** A greedy group that can stop at `m` does stop there. */
  lemma GreedyStopsAt(t: string, q: nat, m: nat)
    requires q < m && ClosesAfter(t, m)
    ensures GreedyEnd(t, q, m) == Some(m)
  {
  }

  /** A group that may end at `n`, followed by text without "}" and the "}" at `k`, spans up to `k`. */
  lemma GreedySpanAt(t: string, q: nat, n: nat, k: nat)
    requires q < n < k < |t| && t[k] == '}' && '}' !in t[n..k]
    ensures GreedySpan(t, q, n) == Some((n, k))
  {
    CloseAt(t, n, k);
    GreedyStopsAt(t, q, n);
  }
  /** A "}" closes the text after `n` at `k`, and nothing between them is a "}". */
  lemma CloseAt(t: string, n: nat, k: nat)
    requires n < k < |t| && t[k] == '}' && '}' !in t[n..k]
    ensures ClosesAfter(t, n) && IndexOf(t[n + 1..], '}') == k - n - 1
  {
    assert t[n] == t[n..k][0];
    assert t[n + 1..][..k - n - 1] == t[n..k][1..];
    IndexOfAt(t[n + 1..], '}', k - n - 1);
  }

  /** "{@hit " digits "}" at the front of `t`, with the "}" at `k`. */
  lemma HitAt(t: string, k: nat)
    requires HitOpen <= t && 6 < k < |t| && AllDigits(t[6..k]) && t[k] == '}'
    ensures MatchHit(t) == Some(Match("+" + t[6..k], k + 1))
  {
    assert t[6..][..k - 6] == t[6..k];
    DigitRunAt(t[6..], k - 6);
  }

  /**
   * "{@filter " at the front of `t`, a label up to the first "|" at `n`, then text without "}" up
   * to the "}" at `k`: the label replaces the token.
   */
  lemma FilterAt(t: string, n: nat, k: nat)
    requires FilterOpen <= t && 9 < n < k < |t|
    requires '|' !in t[9..n] && t[n] == '|' && '}' !in t[n..k] && t[k] == '}'
    ensures MatchFilter(t).Some? && MatchFilter(t).value == Match(t[9..n], k + 1)
  {
    assert t[9..][..n - 9] == t[9..n];
    IndexOfAt(t[9..], '|', n - 9);
    GreedySpanAt(t, 9, n, k);
  }

  /**
   * "{@chance " at the front of `t`, digits up to `n`, then text that starts with a non-digit and
   * has no "}" up to the "}" at `k`: the digits and " percent" replace the token.
   */
  lemma ChanceAt(t: string, n: nat, k: nat)
    requires ChanceOpen <= t && 9 < n < k < |t|
    requires AllDigits(t[9..n]) && !IsDigit(t[n]) && '}' !in t[n..k] && t[k] == '}'
    ensures MatchChance(t) == Some(Match(t[9..n] + " percent", k + 1))
  {
    assert t[9..][..n - 9] == t[9..n];
    DigitRunAt(t[9..], n - 9);
    GreedySpanAt(t, 9, n, k);
  }

  /**
   * "{@" at the front of `t`, a name of word characters up to the space at `e`, then a body
   * without "}" up to the "}" at `k`: the body runs from `e + 1` to `k`.
   */
  lemma TagAt(t: string, e: nat, k: nat)
    requires 2 < e < k < |t| && t[0] == '{' && t[1] == '@' && t[e] == ' '
    requires AllWordChars(t[2..e])
    requires '}' !in t[e + 1..k] && t[k] == '}'
    ensures TagSpan(t) == Some((e + 1, k))
  {
    assert t[2..][..e - 2] == t[2..e];
    WordRunAt(t[2..], e - 2);
    assert t[e + 1..][..k - e - 1] == t[e + 1..k];
    IndexOfAt(t[e + 1..], '}', k - e - 1);
  }

  /** The last part of a tag body: no "|" in it, so it is one block. */
  lemma PartLast(a: string, k: nat)
    requires a != [] && '|' !in a && k > 0
    ensures Split(a, '|') == [a] && TagBlocks(a, k)
  {
    IndexOfAt(a, '|', |a|);
  }

  /** A part followed by "|" and further parts: one more block, one more piece. */
  lemma PartCons(a: string, tail: string, k: nat)
    requires a != [] && '|' !in a
    ensures Split(a + "|" + tail, '|') == [a] + Split(tail, '|')
    ensures TagBlocks(a + "|" + tail, k + 1) == TagBlocks(tail, k)
  {
    var g := a + "|" + tail;
    assert g[..|a|] == a;
    IndexOfAt(g, '|', |a|);
    assert g[|a| + 1..] == tail;
  }

  // The shapes of the tokens: facts about characters and slices, kept apart from the matchers

  lemma HitShape(digits: string, rest: string)
    requires AllDigits(digits)
    ensures var t := HitOpen + digits + "}" + rest; var k := 6 + |digits|;
      HitOpen <= t && k < |t| && t[6..k] == digits && t[k] == '}'
  {
    var t := HitOpen + digits + "}" + rest;
    assert t[..6] == HitOpen;
    assert t[6..6 + |digits|] == digits;
  }

  lemma FilterShape(shown: string, more: string, rest: string)
    requires '|' !in shown && '}' !in more
    ensures var t := FilterOpen + shown + "|" + more + "}" + rest;
      var n := 9 + |shown|; var k := n + 1 + |more|;
      FilterOpen <= t && k < |t| && t[9..n] == shown && t[n] == '|' && '}' !in t[n..k] && t[k] == '}'
  {
    var t := FilterOpen + shown + "|" + more + "}" + rest;
    var n := 9 + |shown|;
    var k := n + 1 + |more|;
    assert t[..9] == FilterOpen;
    assert t[9..n] == shown;
    assert t[n..k] == "|" + more;
  }

  lemma ChanceShape(digits: string, more: string, rest: string)
    requires AllDigits(digits) && more != [] && !IsDigit(more[0]) && '}' !in more
    ensures var t := ChanceOpen + digits + more + "}" + rest;
      var n := 9 + |digits|; var k := n + |more|;
      ChanceOpen <= t && k < |t| && t[9..n] == digits && !IsDigit(t[n]) && '}' !in t[n..k] && t[k] == '}'
  {
    var t := ChanceOpen + digits + more + "}" + rest;
    var n := 9 + |digits|;
    var k := n + |more|;
    assert t[..9] == ChanceOpen;
    assert t[9..n] == digits;
    assert t[n..k] == more;
  }

  lemma TagShape(name: string, g: string, rest: string)
    requires AllWordChars(name)
    requires '}' !in g
    ensures var t := "{@" + name + " " + g + "}" + rest;
      var e := 2 + |name|; var k := e + 1 + |g|;
      && k < |t| && t[0] == '{' && t[1] == '@' && t[e] == ' '
      && t[2..e] == name
      && t[e + 1..k] == g && t[k] == '}'
  {
    var t := "{@" + name + " " + g + "}" + rest;
    var e := 2 + |name|;
    assert t[2..e] == name;
    assert t[e + 1..e + 1 + |g|] == g;
  }

  /** A body of parts without "}" has no "}". */
  lemma PartsWithoutClose(a: string, b: string)
    requires '}' !in a && '}' !in b
    ensures '}' !in a + "|" + b
  {
  }

  lemma DiceSpacingShape(digits: string, sign: char, d: char, rest: string)
    ensures var u := "d" + digits + [sign, d] + rest; var n := |digits|;
      && u == ("d" + digits + [sign, d]) + rest && |u| >= 3 + n
      && u[0] == 'd' && u[1..][..n] == digits && u[1 + n] == sign && u[2 + n] == d
      && u[..1 + n] == "d" + digits
  {
    var u := "d" + digits + [sign, d] + rest;
    assert u[1..][..|digits|] == digits;
    assert u[..1 + |digits|] == "d" + digits;
  }

  lemma DiceCountShape(count: string, sides: string, rest: string)
    ensures var t := count + "d" + sides + rest; var n := |count|; var k := n + 1 + |sides|;
      && k <= |t| && t[..n] == count && t[n] == 'd' && t[n + 1..] == sides + rest
      && t[n..k] == "d" + sides && t[k..] == rest
  {
    var t := count + "d" + sides + rest;
    var n := |count|;
    var k := n + 1 + |sides|;
    assert t[..n] == count;
    assert t[n + 1..] == sides + rest;
    assert t[n..k] == "d" + sides;
    assert t[k..] == rest;
  }

  /** A to-hit token has an "h" third and no "{" after its first character. */
  lemma HitBraces(digits: string, post: string)
    requires AllDigits(digits) && '{' !in post
    ensures var u := HitOpen + digits + "}" + post; |u| > 2 && u[2] == 'h' && '{' !in u[1..]
  {
    var x := digits + ("}" + post);
    var u := HitOpen + x;
    assert u == HitOpen + digits + "}" + post;
    assert '{' !in x by {
      assert '{' !in digits;
    }
    assert u[1..] == HitOpen[1..] + x;
  }

  /** The text a to-hit token leaves behind has no "{" either. */
  lemma HitResultBraces(pre: string, digits: string, post: string)
    requires AllDigits(digits) && '{' !in pre && '{' !in post
    ensures '{' !in pre + ("+" + digits + post)
  {
    assert '{' !in digits;
  }

  // ---------------------------------------------------------------------------------------------
  // The tokens

  /** "{@hit N}" becomes "+N". */
  lemma HitToken(digits: string, rest: string)
    requires digits != [] && AllDigits(digits)
    ensures MatchHit(HitOpen + digits + "}" + rest) == Some(Match("+" + digits, 7 + |digits|))
  {
    HitShape(digits, rest);
    HitAt(HitOpen + digits + "}" + rest, 6 + |digits|);
  }

  /** "{@filter x|…}" becomes x, the text up to the first "|". */
  lemma FilterToken(t: string, shown: string, more: string, rest: string)
    requires t == FilterOpen + shown + "|" + more + "}" + rest
    requires shown != [] && '|' !in shown && '}' !in more
    ensures MatchFilter(t).Some? && MatchFilter(t).value == Match(shown, 11 + |shown| + |more|)
  {
    var n, k := 9 + |shown|, 10 + |shown| + |more|;
    FilterShape(shown, more, rest);
    FilterAt(t, n, k);
  }

  /** "{@chance N…}" with a non-empty text after the digits becomes "N percent". */
  lemma ChanceToken(t: string, digits: string, more: string, rest: string)
    requires t == ChanceOpen + digits + more + "}" + rest
    requires digits != [] && AllDigits(digits)
    requires more != [] && !IsDigit(more[0]) && '}' !in more
    ensures MatchChance(t) == Some(Match(digits + " percent", 10 + |digits| + |more|))
  {
    ChanceShape(digits, more, rest);
    ChanceAt(t, 9 + |digits|, 9 + |digits| + |more|);
  }

  /** The body of a tag is the text between the space after its name and the first "}". */
  lemma TagBody(t: string, name: string, g: string, rest: string)
    requires t == "{@" + name + " " + g + "}" + rest
    requires name != [] && AllWordChars(name)
    requires '}' !in g
    ensures MatchTag(t) == TagResult(g, 4 + |name| + |g|)
  {
    var e, k := 2 + |name|, 3 + |name| + |g|;
    TagShape(name, g, rest);
    TagAt(t, e, k);
    assert MatchTag(t) == TagResult(t[e + 1..k], k + 1);
  }

  /** A body of three non-empty parts picks the third. */
  lemma ThreeParts(a: string, b: string, c: string, len: nat)
    requires a != [] && b != [] && c != [] && '|' !in a && '|' !in b && '|' !in c
    ensures TagResult(a + "|" + (b + "|" + c), len) == Some(Match(c, len))
  {
    PartLast(c, 1);
    PartCons(b, c, 1);
    PartCons(a, b + "|" + c, 2);
  }

  /** A body of two non-empty parts picks the first. */
  lemma TwoParts(a: string, b: string, len: nat)
    requires a != [] && b != [] && '|' !in a && '|' !in b
    ensures TagResult(a + "|" + b, len) == Some(Match(a, len))
  {
    PartLast(b, 2);
    PartCons(a, b, 2);
  }

  /** A tag with three parts becomes its third part. */
  lemma TagTokenThree(name: string, a: string, b: string, c: string, rest: string)
    requires name != [] && AllWordChars(name)
    requires a != [] && b != [] && c != []
    requires '|' !in a && '|' !in b && '|' !in c
    requires '}' !in a && '}' !in b && '}' !in c
    ensures MatchTag("{@" + name + " " + (a + "|" + (b + "|" + c)) + "}" + rest)
         == Some(Match(c, 6 + |name| + |a| + |b| + |c|))
  {
    PartsWithoutClose(b, c);
    PartsWithoutClose(a, b + "|" + c);
    TagBody("{@" + name + " " + (a + "|" + (b + "|" + c)) + "}" + rest, name, a + "|" + (b + "|" + c), rest);
    ThreeParts(a, b, c, 6 + |name| + |a| + |b| + |c|);
  }

  /** A tag with two parts becomes its first part. */
  lemma TagTokenTwo(name: string, a: string, b: string, rest: string)
    requires name != [] && AllWordChars(name)
    requires a != [] && b != []
    requires '|' !in a && '|' !in b && '}' !in a && '}' !in b
    ensures MatchTag("{@" + name + " " + (a + "|" + b) + "}" + rest) == Some(Match(a, 5 + |name| + |a| + |b|))
  {
    PartsWithoutClose(a, b);
    TagBody("{@" + name + " " + (a + "|" + b) + "}" + rest, name, a + "|" + b, rest);
    TwoParts(a, b, 5 + |name| + |a| + |b|);
  }

  /** A tag with one part becomes that part. */
  lemma TagTokenOne(name: string, a: string, rest: string)
    requires name != [] && AllWordChars(name)
    requires a != [] && '|' !in a && '}' !in a
    ensures MatchTag("{@" + name + " " + a + "}" + rest) == Some(Match(a, 4 + |name| + |a|))
  {
    PartLast(a, 3);
    TagBody("{@" + name + " " + a + "}" + rest, name, a, rest);
  }

  /** Where a "d" is followed by a digit run, a sign and a digit, the dice modifier matches. */
  lemma DiceSpacingAt(u: string, n: nat)
    requires 0 < n && 2 + n < |u| && u[0] == 'd' && DigitRun(u[1..]) == n
    requires IsSign(u[1 + n]) && IsDigit(u[2 + n])
    ensures MatchDiceSpacing(u) == Some(Match(u[..1 + n] + " " + [u[1 + n]] + " " + [u[2 + n]], 3 + n))
  {
  }

  /** A dice modifier is spaced out: "d" digits, a sign, a digit. */
  lemma DiceSpacingToken(digits: string, sign: char, d: char, rest: string)
    requires digits != [] && AllDigits(digits) && IsSign(sign) && IsDigit(d)
    ensures ReplaceAll(MatchDiceSpacing, "d" + digits + [sign, d] + rest)
         == "d" + digits + " " + [sign] + " " + [d] + ReplaceAll(MatchDiceSpacing, rest)
  {
    var u := "d" + digits + [sign, d] + rest;
    var n := |digits|;
    DiceSpacingShape(digits, sign, d, rest);
    DigitRunAt(u[1..], n);
    DiceSpacingAt(u, n);
    ReplaceAllAtMatch(MatchDiceSpacing, "d" + digits + [sign, d], rest);
  }

  /** A filter token cannot start where the third character is an "h". */
  lemma FilterNotAt(u: string)
    requires |u| > 2 && u[2] == 'h'
    ensures MatchFilter(u).None?
  {
    assert u[2] != FilterOpen[2];
  }

  /** The filter rewrite leaves a to-hit token and markup-free text after it alone. */
  lemma FilterPassSkipsHit(digits: string, post: string)
    requires AllDigits(digits) && '{' !in post
    ensures ReplaceAll(MatchFilter, HitOpen + digits + "}" + post) == HitOpen + digits + "}" + post
  {
    var u := HitOpen + digits + "}" + post;
    HitBraces(digits, post);
    FilterNotAt(u);
    MarkupNeedsBrace();
    ReplaceAllNoMatchAtFront(MatchFilter, u);
  }

  /** The to-hit rewrite replaces a to-hit token followed by markup-free text. */
  lemma HitPassReplacesHit(digits: string, post: string)
    requires digits != [] && AllDigits(digits) && '{' !in post
    ensures ReplaceAll(MatchHit, HitOpen + digits + "}" + post) == "+" + digits + post
  {
    HitToken(digits, post);
    ReplaceAllAtMatch(MatchHit, HitOpen + digits + "}", post);
    MarkupNeedsBrace();
    ReplaceAllWithoutBrace(MatchHit, post);
  }

  /** `fixLinks` turns a to-hit token between markup-free texts into "+N". */
  lemma FixLinksHit(pre: string, digits: string, post: string)
    requires digits != [] && AllDigits(digits)
    requires '{' !in pre && '{' !in post
    ensures FixLinks(pre + (HitOpen + digits + "}" + post))
         == ReplaceAll(MatchDiceSpacing, pre + ("+" + digits + post))
  {
    var u := HitOpen + digits + "}" + post;
    var s2 := pre + ("+" + digits + post);
    MarkupNeedsBrace();
    FilterPassSkipsHit(digits, post);
    ReplaceAllBraceFreePrefix(MatchFilter, pre, u);
    HitPassReplacesHit(digits, post);
    ReplaceAllBraceFreePrefix(MatchHit, pre, u);
    HitResultBraces(pre, digits, post);
    ReplaceAllWithoutBrace(MatchChance, s2);
    ReplaceAllWithoutBrace(MatchTag, s2);
  }

  /** Where a digit run is followed by "d" and a second digit run, the dice count matches. */
  lemma DiceCountAt(t: string, n: nat, k: nat)
    requires 0 < n && n + 1 < k <= |t| && DigitRun(t) == n && t[n] == 'd'
    requires DigitRun(t[n + 1..]) == k - n - 1
    ensures MatchDiceCount(t).Some? && MatchDiceCount(t).value == Match(t[n..k], k)
  {
    var after := t[n + 1..];
    DigitRunStartsWithDigit(after);
    assert t[n + 1] == after[0];
  }

  /** A damage roll "NdM" loses its dice count: the first "NdM" becomes "dM". */
  lemma DiceCountToken(count: string, sides: string, rest: string)
    requires count != [] && AllDigits(count) && sides != [] && AllDigits(sides)
    requires rest == [] || !IsDigit(rest[0])
    ensures ReplaceFirst(MatchDiceCount, count + "d" + sides + rest) == "d" + sides + rest
  {
    var t := count + "d" + sides + rest;
    var n := |count|;
    DiceCountShape(count, sides, rest);
    DigitRunAt(t, n);
    DigitRunOfPrefix(sides, rest);
    DiceCountAt(t, n, n + 1 + |sides|);
  }

  // ---------------------------------------------------------------------------------------------
  // Running `fixLinks` twice

  /** A scan of the dice-spacing rewrite starts with the character it started on. */
  lemma DiceSpacingHead(u: string)
    requires u != []
    ensures ReplaceAll(MatchDiceSpacing, u) != [] && ReplaceAll(MatchDiceSpacing, u)[0] == u[0]
  {
    var r := MatchDiceSpacing(u);
    if r.Some? {
      var n := DigitRun(u[1..]);
      assert r.value.rep == u[..1 + n] + " " + [u[1 + n]] + " " + [u[2 + n]];
      assert r.value.rep[0] == u[..1 + n][0] == u[0];
    }
  }

  /** A prefix without "d" is copied, and the character after it comes through first. */
  lemma DiceSpacingCopiesFront(u: string, k: nat)
    requires k <= |u| && 'd' !in u[..k]
    ensures var r := ReplaceAll(MatchDiceSpacing, u);
      && |r| >= k && r[..k] == u[..k]
      && (k < |u| ==> |r| > k && r[k] == u[k])
      && (k == |u| ==> |r| == k)
  {
    forall i | 0 <= i < k ensures MatchDiceSpacing(u[i..]).None? {
      assert u[i..][0] == u[..k][i];
    }
    ReplaceAllCopies(MatchDiceSpacing, u, k);
    if k < |u| {
      DiceSpacingHead(u[k..]);
    }
  }

  /** No dice modifier starts inside a spaced-out one. */
  lemma SpacedDiceInert(digits: string, sign: char, d: char, tail: string)
    requires digits != [] && AllDigits(digits) && IsSign(sign) && IsDigit(d)
    ensures var o := ("d" + digits + " " + [sign] + " " + [d]) + tail;
      forall i :: 0 <= i < |digits| + 5 ==> MatchDiceSpacing(o[i..]).None?
  {
    var o := ("d" + digits + " " + [sign] + " " + [d]) + tail;
    var n := |digits|;
    assert o[1..][..n] == digits;
    DigitRunAt(o[1..], n);
    assert o[0..] == o && !IsSign(o[1 + n]);
    forall i | 1 <= i < n + 5 ensures MatchDiceSpacing(o[i..]).None? {
      assert o[i..][0] == o[i];
      if i <= n {
        assert o[i] == digits[i - 1];
      }
    }
  }

  /**
   * Whether a dice modifier starts at a "d" is decided by the digit run after it, the character
   * after the run and, after a sign, the character after that.
   */
  lemma DiceSpacingDecided(s: string, o: string, n: nat)
    requires s != [] && o != [] && s[0] == 'd' && o[0] == 'd'
    requires DigitRun(s[1..]) == n && DigitRun(o[1..]) == n
    requires 1 + n < |s| <==> 1 + n < |o|
    requires 1 + n < |s| ==> o[1 + n] == s[1 + n]
    requires 1 + n < |s| && IsSign(s[1 + n]) ==> (2 + n < |s| <==> 2 + n < |o|)
    requires 2 + n < |s| && IsSign(s[1 + n]) ==> o[2 + n] == s[2 + n]
    ensures MatchDiceSpacing(o).None? == MatchDiceSpacing(s).None?
  {
  }

  /** The digits at the front of a text, and the sign after them, contain no "d". */
  lemma DigitsSignNoD(u: string, k: nat)
    requires k <= |u| && AllDigits(u[..DigitRun(u)])
    requires k == DigitRun(u) || (k == DigitRun(u) + 1 && IsSign(u[DigitRun(u)]))
    ensures 'd' !in u[..k]
  {
    var n := DigitRun(u);
    forall i | 0 <= i < k ensures u[..k][i] != 'd' {
      if i < n {
        assert IsDigit(u[..n][i]) && u[..k][i] == u[..n][i];
      } else {
        assert IsSign(u[..k][i]);
      }
    }
  }

  /** The dice-spacing rewrite keeps the digit run at the front of a text and the character after it. */
  lemma DiceSpacingKeepsDigits(u: string)
    ensures var n := DigitRun(u); var r := ReplaceAll(MatchDiceSpacing, u);
      && DigitRun(r) == n
      && (n < |u| <==> n < |r|)
      && (n < |u| ==> r[n] == u[n])
  {
    var n := DigitRun(u);
    DigitRunDigits(u);
    DigitsSignNoD(u, n);
    DiceSpacingCopiesFront(u, n);
    DigitRunAt(ReplaceAll(MatchDiceSpacing, u), n);
  }

  /** After the digit run and a sign, the dice-spacing rewrite keeps the next character too. */
  lemma DiceSpacingKeepsSign(u: string)
    requires DigitRun(u) < |u| && IsSign(u[DigitRun(u)])
    ensures var n := DigitRun(u); var r := ReplaceAll(MatchDiceSpacing, u);
      && (n + 1 < |u| <==> n + 1 < |r|)
      && (n + 1 < |u| ==> r[n + 1] == u[n + 1])
  {
    var n := DigitRun(u);
    DigitRunDigits(u);
    DigitsSignNoD(u, n + 1);
    DiceSpacingCopiesFront(u, n + 1);
  }

  /** Where no dice modifier starts at a "d", none starts there after the rest is rewritten. */
  lemma DiceSpacingMissKept(s: string)
    requires s != [] && s[0] == 'd' && MatchDiceSpacing(s).None?
    ensures MatchDiceSpacing([s[0]] + ReplaceAll(MatchDiceSpacing, s[1..])).None?
  {
    var u := s[1..];
    DiceSpacingKeepsDigits(u);
    if DigitRun(u) < |u| && IsSign(u[DigitRun(u)]) {
      DiceSpacingKeepsSign(u);
    }
    var o := [s[0]] + ReplaceAll(MatchDiceSpacing, s[1..]);
    assert o[1..] == ReplaceAll(MatchDiceSpacing, s[1..]);
    DiceSpacingDecided(s, o, DigitRun(s[1..]));
  }

  /** A second dice-spacing rewrite finds nothing left to space out. */
  lemma {:induction false} DiceSpacingIdempotent(s: string)
    ensures ReplaceAll(MatchDiceSpacing, ReplaceAll(MatchDiceSpacing, s)) == ReplaceAll(MatchDiceSpacing, s)
    decreases |s|
  {
    if s != [] {
      match MatchDiceSpacing(s)
      case Some(r) =>
        var n := DigitRun(s[1..]);
        var digits := s[1..][..n];
        DigitRunDigits(s[1..]);
        assert s[..1 + n] == "d" + digits;
        var tail := ReplaceAll(MatchDiceSpacing, s[3 + n..]);
        var o := r.rep + tail;
        assert o == ("d" + digits + " " + [s[1 + n]] + " " + [s[2 + n]]) + tail;
        SpacedDiceInert(digits, s[1 + n], s[2 + n], tail);
        ReplaceAllCopies(MatchDiceSpacing, o, |r.rep|);
        assert o[..|r.rep|] == r.rep && o[|r.rep|..] == tail;
        DiceSpacingIdempotent(s[3 + n..]);
      case None =>
        var o := [s[0]] + ReplaceAll(MatchDiceSpacing, s[1..]);
        if s[0] == 'd' {
          DiceSpacingMissKept(s);
        }
        assert o[1..] == ReplaceAll(MatchDiceSpacing, s[1..]);
        DiceSpacingIdempotent(s[1..]);
    }
  }

  /** A spaced-out dice modifier holds no "{" that was not in the text. */
  lemma DiceSpacingRepNoBrace(s: string)
    requires '{' !in s && MatchDiceSpacing(s).Some?
    ensures '{' !in MatchDiceSpacing(s).value.rep
  {
    var n := DigitRun(s[1..]);
    var head := s[..1 + n];
    assert '{' !in head by {
      assert s == head + s[1 + n..];
    }
    assert s[1 + n] in s && s[2 + n] in s;
  }

  /** The dice-spacing rewrite adds no "{". */
  lemma {:induction false} DiceSpacingNoBrace(s: string)
    requires '{' !in s
    ensures '{' !in ReplaceAll(MatchDiceSpacing, s)
    decreases |s|
  {
    if s != [] {
      match MatchDiceSpacing(s)
      case Some(r) =>
        DiceSpacingRepNoBrace(s);
        DiceSpacingNoBrace(s[r.len..]);
      case None =>
        assert s[0] in s;
        DiceSpacingNoBrace(s[1..]);
        assert ReplaceAll(MatchDiceSpacing, s) == [s[0]] + ReplaceAll(MatchDiceSpacing, s[1..]);
    }
  }

  /** On text without "{", a second `fixLinks` changes nothing. */
  lemma FixLinksIdempotentWithoutBrace(s: string)
    requires '{' !in s
    ensures FixLinks(FixLinks(s)) == FixLinks(s)
  {
    FixLinksWithoutMarkup(s);
    DiceSpacingNoBrace(s);
    FixLinksWithoutMarkup(FixLinks(s));
    DiceSpacingIdempotent(s);
  }

  /** The filter, to-hit and chance tokens cannot start where the third character is none of "f", "h", "c". */
  lemma OpenNotAt(u: string)
    requires |u| > 2 && u[2] != 'f' && u[2] != 'h' && u[2] != 'c'
    ensures MatchFilter(u).None? && MatchHit(u).None? && MatchChance(u).None?
  {
    assert u[2] != FilterOpen[2] && u[2] != HitOpen[2] && u[2] != ChanceOpen[2];
  }

  /** Text without "d" passes the dice-spacing rewrite unchanged. */
  lemma DiceSpacingWithoutD(u: string)
    requires 'd' !in u
    ensures ReplaceAll(MatchDiceSpacing, u) == u
  {
    forall k | 0 <= k < |u| ensures MatchDiceSpacing(u[k..]).None? {
      assert u[k..][0] == u[k];
    }
    ReplaceAllWithoutMatch(MatchDiceSpacing, u);
  }

  /** `fixLinks` of a lone one-part tag is its body. */
  lemma FixLinksLoneTag(name: string, a: string)
    requires |name| == 1 && AllWordChars(name) && name[0] != 'f' && name[0] != 'h' && name[0] != 'c'
    requires a != [] && '|' !in a && '}' !in a && '{' !in a && 'd' !in a
    ensures FixLinks("{@" + name + " " + a + "}") == a
  {
    var u := "{@" + name + " " + a + "}";
    assert u == "{@" + name + " " + a + "}" + "";
    assert u[2] == name[0] && '{' !in u[1..];
    MarkupNeedsBrace();
    OpenNotAt(u);
    ReplaceAllNoMatchAtFront(MatchFilter, u);
    ReplaceAllNoMatchAtFront(MatchHit, u);
    ReplaceAllNoMatchAtFront(MatchChance, u);
    TagTokenOne(name, a, "");
    ReplaceAllAtMatch(MatchTag, u, "");
    assert a + ReplaceAll(MatchTag, "") == a;
    DiceSpacingWithoutD(a);
  }

  /** No markup token starts at a "{" followed by another "{". */
  lemma DoubleBraceNoMatch(t: string)
    requires |t| > 1 && t[1] == '{'
    ensures MatchFilter(t).None? && MatchHit(t).None? && MatchChance(t).None? && MatchTag(t).None?
  {
    assert t[1] != FilterOpen[1] && t[1] != HitOpen[1] && t[1] != ChanceOpen[1];
  }

  /** A scan copies a "{" at which no match starts. */
  lemma ReplaceAllBraceFront(m: Matcher, u: string)
    requires Consumes(m) && m("{" + u).None?
    ensures ReplaceAll(m, "{" + u) == "{" + ReplaceAll(m, u)
  {
    assert ("{" + u)[1..] == u;
  }

  /** Text whose "{"s are its first two characters, where no match starts, is unchanged. */
  lemma ReplaceAllBracedUnchanged(m: Matcher, u: string)
    requires Consumes(m) && NeedsBrace(m) && u != [] && m(u).None? && m("{" + u).None? && '{' !in u[1..]
    ensures ReplaceAll(m, "{" + u) == "{" + u
  {
    ReplaceAllNoMatchAtFront(m, u);
    ReplaceAllBraceFront(m, u);
  }

  /** The tag rewrite turns a one-part tag wrapped in braces into its body wrapped in braces. */
  lemma TagPassBraced(name: string, a: string)
    requires name != [] && AllWordChars(name)
    requires a != [] && '|' !in a && '}' !in a
    ensures ReplaceAll(MatchTag, "{" + (("{@" + name + " " + a + "}") + "}")) == "{" + (a + "}")
  {
    var tok := "{@" + name + " " + a + "}";
    var u := tok + "}";
    TagTokenOne(name, a, "}");
    ReplaceAllAtMatch(MatchTag, tok, "}");
    MarkupNeedsBrace();
    ReplaceAllWithoutBrace(MatchTag, "}");
    assert ("{" + u)[1] == tok[0] == '{';
    DoubleBraceNoMatch("{" + u);
    ReplaceAllBraceFront(MatchTag, u);
  }

  /** The character facts about a one-part tag followed by "}" that the three opening rewrites need. */
  lemma BracedTagShape(name: string, a: string)
    requires |name| == 1 && AllWordChars(name) && '{' !in a
    ensures var u := ("{@" + name + " " + a + "}") + "}"; |u| > 2 && u[0] == '{' && u[2] == name[0] && '{' !in u[1..]
  {
    var u := ("{@" + name + " " + a + "}") + "}";
    assert IsWordChar(name[0]) && name == [name[0]];
    assert u == "{@" + (name + (" " + (a + "}}")));
    assert u[1..] == "@" + (name + (" " + (a + "}}")));
  }

  /** `fixLinks` of a one-part tag wrapped in braces is its body wrapped in braces. */
  lemma FixLinksBracedTag(name: string, a: string)
    requires |name| == 1 && AllWordChars(name) && name[0] != 'f' && name[0] != 'h' && name[0] != 'c'
    requires a != [] && '|' !in a && '}' !in a && '{' !in a && 'd' !in a
    ensures FixLinks("{" + (("{@" + name + " " + a + "}") + "}")) == "{" + (a + "}")
  {
    var u := ("{@" + name + " " + a + "}") + "}";
    BracedTagShape(name, a);
    OpenersSkipBraced(u);
    TagPassBraced(name, a);
    DiceSpacingBraced(a);
    FixLinksSteps("{" + u, "{" + (a + "}"));
  }

  /** Text without "d" in braces passes the dice-spacing rewrite unchanged. */
  lemma DiceSpacingBraced(a: string)
    requires 'd' !in a
    ensures ReplaceAll(MatchDiceSpacing, "{" + (a + "}")) == "{" + (a + "}")
  {
    assert 'd' !in "{" + (a + "}");
    DiceSpacingWithoutD("{" + (a + "}"));
  }

  /** `fixLinks` in terms of what its three opening rewrites, its tag rewrite and its dice rewrite do. */
  lemma FixLinksSteps(t: string, b: string)
    requires ReplaceAll(MatchChance, ReplaceAll(MatchHit, ReplaceAll(MatchFilter, t))) == t
    requires ReplaceAll(MatchTag, t) == b && ReplaceAll(MatchDiceSpacing, b) == b
    ensures FixLinks(t) == b
  {
  }

  /** The filter, to-hit and chance rewrites leave a tag not named "f", "h" or "c" alone inside braces. */
  lemma OpenersSkipBraced(u: string)
    requires |u| > 2 && u[2] != 'f' && u[2] != 'h' && u[2] != 'c' && u[0] == '{' && '{' !in u[1..]
    ensures ReplaceAll(MatchChance, ReplaceAll(MatchHit, ReplaceAll(MatchFilter, "{" + u))) == "{" + u
  {
    DoubleBraceNoMatch("{" + u);
    MarkupNeedsBrace();
    OpenNotAt(u);
    ReplaceAllBracedUnchanged(MatchFilter, u);
    ReplaceAllBracedUnchanged(MatchHit, u);
    ReplaceAllBracedUnchanged(MatchChance, u);
  }

  /** A tag inside braces: one pass of `fixLinks` leaves a tag, which a second pass rewrites again. */
  lemma FixLinksNestedTagNotIdempotent()
    ensures FixLinks("{{@b @i x}}") == "{@i x}"
    ensures FixLinks(FixLinks("{{@b @i x}}")) == "x"
  {
    FixLinksBracedTag("b", "@i x");
    NestedTagText();
    FixLinksLoneTag("i", "x");
  }

  /** The nested-tag example, spelled as the two general lemmas build it. */
  lemma NestedTagText()
    ensures "{" + (("{@" + "b" + " " + "@i x" + "}") + "}") == "{{@b @i x}}"
    ensures "{" + ("@i x" + "}") == "{@" + "i" + " " + "x" + "}" == "{@i x}"
  {
  }

  // ---------------------------------------------------------------------------------------------
  // The quote substitution

  /** Each character is kept, or it is a straight quote turned into a typographic one. */
  predicate QuoteImage(c: char, d: char) {
    d == c || (c == '\'' && d == RightSingleQuote) || (c == '"' && (d == LeftDoubleQuote || d == RightDoubleQuote))
  }

  /** `u` is `t` with some straight quotes made typographic. */
  predicate QuoteImages(t: string, u: string) {
    |u| == |t| && forall i :: 0 <= i < |t| ==> QuoteImage(t[i], u[i])
  }

  lemma QuoteImagesTrans(s: string, t: string, u: string)
    requires QuoteImages(s, t) && QuoteImages(t, u)
    ensures QuoteImages(s, u)
  {
    forall i | 0 <= i < |s| ensures QuoteImage(s[i], u[i]) {
      assert QuoteImage(s[i], t[i]) && QuoteImage(t[i], u[i]);
    }
  }

  /** Typographic quotes never turn back into a straight apostrophe. */
  lemma QuoteImagesKeepNoApostrophe(t: string, u: string)
    requires QuoteImages(t, u) && '\'' !in t
    ensures '\'' !in u
  {
    forall i | 0 <= i < |u| ensures u[i] != '\'' {
      assert t[i] in t;
    }
  }

  /** Every match of `m` replaces characters one for one, each by a `QuoteImage` of it. */
  ghost predicate KeepsQuotes(m: Matcher) {
    forall t :: m(t).Some? ==> m(t).value.len <= |t| && QuoteImages(t[..m(t).value.len], m(t).value.rep)
  }

  lemma QuoteImagesAppend(s: string, t: string, u: string, v: string)
    requires QuoteImages(s, u) && QuoteImages(t, v)
    ensures QuoteImages(s + t, u + v)
  {
    forall i | 0 <= i < |s + t| ensures QuoteImage((s + t)[i], (u + v)[i]) {
      if i >= |s| {
        assert (s + t)[i] == t[i - |s|] && (u + v)[i] == v[i - |s|];
      }
    }
  }

  lemma ApostropheKeepsQuotes()
    ensures KeepsQuotes(MatchApostrophe)
  {
    forall t | MatchApostrophe(t).Some?
      ensures QuoteImages(t[..1], MatchApostrophe(t).value.rep)
    {
      assert t[..1] == ['\''];
    }
  }

  lemma OpenQuoteKeepsQuotes()
    ensures KeepsQuotes(MatchOpenQuote)
  {
    forall t | MatchOpenQuote(t).Some?
      ensures QuoteImages(t[..3], MatchOpenQuote(t).value.rep)
    {
      assert t[..3] == [t[0], '"', t[2]];
    }
  }

  lemma CloseQuoteKeepsQuotes()
    ensures KeepsQuotes(MatchCloseQuote)
  {
    forall t | MatchCloseQuote(t).Some?
      ensures QuoteImages(t[..2], MatchCloseQuote(t).value.rep)
    {
      assert t[..2] == [t[0], '"'];
    }
  }

  /**
   * A scan whose matches keep quotes keeps the length of the text and changes, position by
   * position, only straight quotes, and only into typographic ones.
   */
  lemma {:induction false} QuotePassPointwise(m: Matcher, t: string)
    requires Consumes(m) && KeepsQuotes(m)
    ensures QuoteImages(t, ReplaceAll(m, t))
    decreases |t|
  {
    if t != [] {
      match m(t)
      case Some(r) =>
        QuotePassPointwise(m, t[r.len..]);
        QuoteImagesAppend(t[..r.len], t[r.len..], r.rep, ReplaceAll(m, t[r.len..]));
        assert t[..r.len] + t[r.len..] == t;
      case None =>
        QuotePassPointwise(m, t[1..]);
        QuoteImagesAppend([t[0]], t[1..], [t[0]], ReplaceAll(m, t[1..]));
        assert [t[0]] + t[1..] == t;
    }
  }
  /** No straight apostrophe survives the first quote rewrite. */
  lemma {:induction false} ApostrophesReplaced(t: string)
    ensures '\'' !in ReplaceAll(MatchApostrophe, t)
    decreases |t|
  {
    if t != [] {
      ApostrophesReplaced(t[1..]);
      if t[0] == '\'' {
        assert ReplaceAll(MatchApostrophe, t) == [RightSingleQuote] + ReplaceAll(MatchApostrophe, t[1..]);
      } else {
        assert ReplaceAll(MatchApostrophe, t) == [t[0]] + ReplaceAll(MatchApostrophe, t[1..]);
      }
    }
  }

  /**
   * `serialiseFixer` on a string keeps its length, leaves no straight apostrophe, and changes
   * only straight quotes, each into a typographic quote.
   */
  lemma SerialiseTextShape(s: string)
    ensures QuoteImages(s, SerialiseText(s))
    ensures '\'' !in SerialiseText(s)
  {
    var s1 := ReplaceAll(MatchApostrophe, s);
    var s2 := ReplaceAll(MatchOpenQuote, s1);
    var s3 := ReplaceAll(MatchCloseQuote, s2);
    ApostropheKeepsQuotes();
    OpenQuoteKeepsQuotes();
    CloseQuoteKeepsQuotes();
    QuotePassPointwise(MatchApostrophe, s);
    QuotePassPointwise(MatchOpenQuote, s1);
    QuotePassPointwise(MatchCloseQuote, s2);
    QuoteImagesTrans(s, s1, s2);
    QuoteImagesTrans(s, s2, s3);
    ApostrophesReplaced(s);
    QuoteImagesTrans(s1, s2, s3);
    QuoteImagesKeepNoApostrophe(s1, s3);
  }}
