/**
 * The statblock sections of a monster (traits, actions, reactions): `processStatblockSection`
 * turns each entry tree into one output feature followed by the named sub-features of its item
 * lists, and `processSpecialList` splits the multi-part abilities (Roar, Eye Rays, …) into one
 * feature per numbered or named part.
 */
module Statblock {
  import opened Wrappers
  import opened Text
  import opened Markup
  import opened Traits
  import opened Collections

  /** An item of a list whose first item is an object: a named sub-trait. */
  datatype SubTrait = SubTrait(name: string, entry: string)

  /** A member of an `entries` block: a string, or an object whose `text` (if it has one) is used. */
  datatype Piece = PieceText(s: string) | PieceObject(text: Option<string>)

  /**
   * One entry of a trait. An object entry is read by its fields: `items` first (a list of named
   * sub-traits when its first item is an object, otherwise a list of strings), then `entries`
   * (joined with nothing when its type is "inline", with line breaks otherwise); an object with
   * neither contributes nothing.
   */
  datatype Entry =
    | Text(s: string)
    | SubTraits(subs: seq<SubTrait>)
    | Bullets(items: seq<string>)
    | Block(inline: bool, pieces: seq<Piece>)
    | Bare

  /** A trait, action or reaction of the input: its name and its entries. */
  datatype Trait = Trait(name: string, entries: seq<Entry>)

  /** A trait, action or reaction of the output: name, text and the limit taken out of the name. */
  datatype Feature = Feature(name: string, text: string, recharge: Option<string>)

  /** What one entry expands to: a line of its trait's text, or a sub-feature that follows the trait. */
  datatype Expanded = Line(s: string) | Sub(f: Feature)

  // ---------------------------------------------------------------------------------------------
  // Item names

  /** A name that is one run of non-dots ended by a dot loses the dot; any other name is kept. */
  function StripDot(name: string): string {
    if |name| >= 2 && name[|name| - 1] == '.' && '.' !in name[..|name| - 1] then name[..|name| - 1]
    else name
  }

  /** "Bite." becomes "Bite"; the result has no dot in that case. */
  lemma StripDotOf(name: string)
    requires name != [] && '.' !in name
    ensures StripDot(name + ".") == name
  {
    assert (name + ".")[..|name|] == name;
  }

  /** A name with a dot anywhere but at its end, or none at its end, is kept. */
  lemma StripDotKeeps(name: string)
    requires name == [] || name[|name| - 1] != '.' || '.' in name[..|name| - 1]
    ensures StripDot(name) == name
  {
  }

  /** Stripping twice is stripping once. */
  lemma StripDotIdempotent(name: string)
    ensures StripDot(StripDot(name)) == StripDot(name)
  {
    var r := StripDot(name);
    if r != name {
      assert r[|r| - 1] in r;
    }
  }

  // ---------------------------------------------------------------------------------------------
  // Entry expansion

  function PieceString(p: Piece): string {
    match p
    case PieceText(s) => s
    case PieceObject(t) => t.GetOr("")
  }

  function PieceStrings(ps: seq<Piece>): (r: seq<string>)
    ensures |r| == |ps|
  {
    if ps == [] then [] else [PieceString(ps[0])] + PieceStrings(ps[1..])
  }

  function BulletLines(items: seq<string>): (r: seq<string>)
    ensures |r| == |items|
  {
    if items == [] then [] else ["• " + FixLinks(items[0])] + BulletLines(items[1..])
  }

  function SubFeatures(subs: seq<SubTrait>): (r: seq<Expanded>)
    ensures |r| == |subs|
  {
    if subs == [] then []
    else [Sub(Feature(StripDot(subs[0].name), FixLinks(subs[0].entry), None))] + SubFeatures(subs[1..])
  }

  function ExpandEntry(e: Entry): seq<Expanded> {
    match e
    case Text(s) => [Line(FixLinks(s))]
    case SubTraits(subs) => SubFeatures(subs)
    case Bullets(items) => [Line(Join(BulletLines(items), "\n"))]
    case Block(inline, pieces) => [Line(Join(PieceStrings(pieces), if inline then "" else "\n"))]
    case Bare => []
  }

  /** `entries.map(expand).reduce(flattener, [])`. */
  function ExpandAll(es: seq<Entry>): seq<Expanded> {
    if es == [] then [] else ExpandEntry(es[0]) + ExpandAll(es[1..])
  }

  function Lines(xs: seq<Expanded>): seq<string> {
    if xs == [] then []
    else (match xs[0] case Line(s) => [s] case Sub(_) => []) + Lines(xs[1..])
  }

  function Subs(xs: seq<Expanded>): seq<Feature> {
    if xs == [] then []
    else (match xs[0] case Line(_) => [] case Sub(f) => [f]) + Subs(xs[1..])
  }

  lemma {:induction false} LinesAppend(a: seq<Expanded>, b: seq<Expanded>)
    ensures Lines(a + b) == Lines(a) + Lines(b)
    decreases |a|
  {
    if a != [] {
      assert (a + b)[1..] == a[1..] + b;
      LinesAppend(a[1..], b);
    } else {
      assert a + b == b;
    }
  }

  lemma {:induction false} SubsAppend(a: seq<Expanded>, b: seq<Expanded>)
    ensures Subs(a + b) == Subs(a) + Subs(b)
    decreases |a|
  {
    if a != [] {
      assert (a + b)[1..] == a[1..] + b;
      SubsAppend(a[1..], b);
    } else {
      assert a + b == b;
    }
  }

  // ---------------------------------------------------------------------------------------------
  // The same expansion, entry by entry

  /** The line an entry adds to its trait's text, if any. */
  function EntryLine(e: Entry): Option<string> {
    match e
    case Text(s) => Some(FixLinks(s))
    case SubTraits(_) => None
    case Bullets(items) => Some(Join(BulletLines(items), "\n"))
    case Block(inline, pieces) => Some(Join(PieceStrings(pieces), if inline then "" else "\n"))
    case Bare => None
  }

  /** The lines of a trait's text: one per string, bullet list or block entry, in entry order. */
  function TextLines(es: seq<Entry>): seq<string> {
    if es == [] then []
    else (match EntryLine(es[0]) case Some(l) => [l] case None => []) + TextLines(es[1..])
  }

  /** The sub-features named by the item lists of a trait, in entry order and then item order. */
  function NamedItems(es: seq<Entry>): seq<SubTrait> {
    if es == [] then []
    else (match es[0] case SubTraits(subs) => subs case _ => []) + NamedItems(es[1..])
  }

  function ItemFeature(s: SubTrait): Feature {
    Feature(StripDot(s.name), FixLinks(s.entry), None)
  }

  function ItemFeatures(subs: seq<SubTrait>): (r: seq<Feature>)
    ensures |r| == |subs|
  {
    if subs == [] then [] else [ItemFeature(subs[0])] + ItemFeatures(subs[1..])
  }

  lemma {:induction false} SubFeaturesSplit(subs: seq<SubTrait>)
    ensures Lines(SubFeatures(subs)) == [] && Subs(SubFeatures(subs)) == ItemFeatures(subs)
    decreases |subs|
  {
    if subs != [] {
      SubFeaturesSplit(subs[1..]);
      var x := Sub(ItemFeature(subs[0]));
      LinesAppend([x], SubFeatures(subs[1..]));
      SubsAppend([x], SubFeatures(subs[1..]));
    }
  }

  lemma {:induction false} ItemFeaturesAppend(a: seq<SubTrait>, b: seq<SubTrait>)
    ensures ItemFeatures(a + b) == ItemFeatures(a) + ItemFeatures(b)
    decreases |a|
  {
    if a != [] {
      assert (a + b)[1..] == a[1..] + b;
      ItemFeaturesAppend(a[1..], b);
    } else {
      assert a + b == b;
    }
  }

  lemma EntrySplit(e: Entry)
    ensures Lines(ExpandEntry(e)) == (match EntryLine(e) case Some(l) => [l] case None => [])
    ensures Subs(ExpandEntry(e)) == ItemFeatures(match e case SubTraits(subs) => subs case _ => [])
  {
    match e
    case SubTraits(subs) => SubFeaturesSplit(subs);
    case _ =>
  }

  /**
   * Filtering the flattened expansion gives the entry-by-entry reading: the strings are the text
   * lines in entry order, and the objects are the named items in entry and item order.
   */
  lemma {:induction false} ExpandAllSplit(es: seq<Entry>)
    ensures Lines(ExpandAll(es)) == TextLines(es)
    ensures Subs(ExpandAll(es)) == ItemFeatures(NamedItems(es))
    decreases |es|
  {
    if es != [] {
      ExpandAllSplit(es[1..]);
      EntrySplit(es[0]);
      LinesAppend(ExpandEntry(es[0]), ExpandAll(es[1..]));
      SubsAppend(ExpandEntry(es[0]), ExpandAll(es[1..]));
      ItemFeaturesAppend(match es[0] case SubTraits(subs) => subs case _ => [], NamedItems(es[1..]));
    }
  }

  // ---------------------------------------------------------------------------------------------
  // Multi-part abilities

  /** The names whose features are split into parts. */
  predicate IsSpecial(name: string) {
    name == "Roar" || name == "Eye Rays" || name == "Eye Ray" || name == "Gaze" || name == "Call the Blood"
  }

  /** Length of the run of ASCII lower-case letters at the front of `s`. */
  function LowerRun(s: string): (n: nat)
    ensures n <= |s|
  {
    if s != [] && IsLower(s[0]) then 1 + LowerRun(s[1..]) else 0
  }

  /** Capitalised words separated by single spaces: `[A-Z][a-z]+(?: [A-Z][a-z]+)*`. */
  predicate CapWords(t: string)
    decreases |t|
  {
    && |t| >= 2 && IsUpper(t[0])
    && var n := 1 + LowerRun(t[1..]);
      && n >= 2
      && (n == |t| || (n + 1 < |t| + 1 && t[n] == ' ' && CapWords(t[n + 1..])))
  }

  /** The numbering `\d+\. ` at the front of a part, or nothing. */
  function NumberingLen(e: string): (n: nat)
    ensures n <= |e|
  {
    var d := DigitRun(e);
    if d > 0 && d + 2 <= |e| && e[d] == '.' && e[d + 1] == ' ' then d + 2 else 0
  }

  /** The name may end at `q`: any character, a space, then the rest of the line, ends the part. */
  predicate NameFits(u: string, q: nat) {
    && q + 2 <= |u| && CapWords(u[..q])
    && !IsLineTerminator(u[q]) && u[q + 1] == ' ' && NoLineBreak(u[q + 2..])
  }

  /**
   * The end of the name group: the largest end no later than `q` at which the rest of the pattern
   * matches. The backtracking search of the pattern tries the ends of the name in decreasing
   * order (the greedy runs give back one letter at a time, and a word is dropped only after its
   * letters are exhausted), so the first end that fits is the largest.
   */
  function NameEnd(u: string, q: nat): (r: Option<nat>)
    ensures r.Some? ==> r.value <= q && NameFits(u, r.value)
    decreases q
  {
    if q < 2 then None
    else if NameFits(u, q) then Some(q)
    else NameEnd(u, q - 1)
  }

  /** A part of a multi-part ability, split as `^(?:\d+\. )?(Name). (.*)$` splits it. */
  function PartHead(e: string): Option<(string, string)> {
    var p := NumberingLen(e);
    var u := e[p..];
    if |u| < 2 then None
    else match NameEnd(u, |u| - 2)
      case Some(q) => Some((u[..q], u[q + 2..]))
      case None => None
  }

  /** One part: a new feature when its head matches, otherwise one more line of the last feature. */
  function SpecialStep(acc: seq<Feature>, e: string): (r: seq<Feature>)
    requires acc != []
    ensures r != []
  {
    match PartHead(e)
    case Some((name, text)) => acc + [Feature(name, FixLinks(text), None)]
    case None =>
      var last := acc[|acc| - 1];
      acc[..|acc| - 1] + [last.(text := last.text + "\n" + e)]
  }

  /** `entries.slice(1).reduce(step, [action])`. */
  function SpecialFold(acc: seq<Feature>, es: seq<string>): (r: seq<Feature>)
    requires acc != []
    ensures r != []
    decreases |es|
  {
    if es == [] then acc else SpecialFold(SpecialStep(acc, es[0]), es[1..])
  }

  /** `processSpecialList`: the first part is the feature's text; each later part is folded in. */
  function SpecialList(action: Feature, entries: seq<Entry>): Result<seq<Feature>> {
    if entries == [] || !entries[0].Text? then Err("entries[0] is not a string")
    else if exists i :: 1 <= i < |entries| && !entries[i].Text? then Err("entry.match is not a function")
    else Ok(SpecialFold([action.(text := FixLinks(entries[0].s))], TextsOf(entries[1..])))
  }

  function TextsOf(es: seq<Entry>): (r: seq<string>)
    requires forall i :: 0 <= i < |es| ==> es[i].Text?
    ensures |r| == |es|
  {
    if es == [] then [] else [es[0].s] + TextsOf(es[1..])
  }

  // ---------------------------------------------------------------------------------------------
  // Sections

  /** One trait of a section: its feature, then its named items; multi-part abilities are split. */
  function TraitFeatures(t: Trait): Result<seq<Feature>> {
    var made := MakeTraitAction(t.name);
    var head := Feature(made.name, "", made.recharge);
    if IsSpecial(made.name) then SpecialList(head, t.entries)
    else
      var expanded := ExpandAll(t.entries);
      Ok([head.(text := Join(Lines(expanded), "\n"))] + Subs(expanded))
  }

  /** The array one trait maps to, which the section's `reduce(flattener, [])` spreads. */
  function TraitItem(t: Trait): Result<Item<Feature>> {
    var fs :- TraitFeatures(t);
    Ok(Many(fs))
  }

  /** `processStatblockSection`: the features of every trait, in order; the first failure fails it. */
  function ProcessStatblockSection(section: seq<Trait>): Result<seq<Feature>> {
    var items :- MapResult(TraitItem, section);
    Ok(FlattenItems(items))
  }

  // ---------------------------------------------------------------------------------------------
  // Properties of sections

  /** A section split in two gives the features of the first part, then those of the second. */
  lemma SectionAppend(a: seq<Trait>, b: seq<Trait>)
    requires ProcessStatblockSection(a).Ok? && ProcessStatblockSection(b).Ok?
    ensures ProcessStatblockSection(a + b).Ok?
    ensures ProcessStatblockSection(a + b).value == ProcessStatblockSection(a).value + ProcessStatblockSection(b).value
  {
    MapResultAppend(TraitItem, a, b);
    FlattenItemsAppend(MapResult(TraitItem, a).value, MapResult(TraitItem, b).value);
  }

  /** A section fails exactly when one of its traits fails, and then with the first trait's error. */
  lemma SectionFails(section: seq<Trait>)
    ensures ProcessStatblockSection(section).Err? <==> exists i :: 0 <= i < |section| && TraitFeatures(section[i]).Err?
    ensures ProcessStatblockSection(section).Err? ==>
      exists i :: 0 <= i < |section| && TraitFeatures(section[i]).Err?
        && ProcessStatblockSection(section).message == TraitFeatures(section[i]).message
        && forall j :: 0 <= j < i ==> TraitFeatures(section[j]).Ok?
  {
    MapResultFails(TraitItem, section);
    assert forall i :: 0 <= i < |section| ==> (TraitItem(section[i]).Err? <==> TraitFeatures(section[i]).Err?);
  }

  /** A section of one trait gives that trait's features. */
  lemma SectionOne(t: Trait)
    ensures ProcessStatblockSection([t]) == TraitFeatures(t)
  {
    MapResultOne(TraitItem, t);
    if TraitFeatures(t).Ok? {
      FlattenOne(TraitFeatures(t).value);
    }
  }

  /**
   * An ordinary trait gives its feature, whose text is its text lines joined by line breaks, and
   * right after it the features of its named items, in entry order and item order.
   */
  lemma TraitFeaturesOrdinary(t: Trait)
    requires !IsSpecial(MakeTraitAction(t.name).name)
    ensures var made := MakeTraitAction(t.name);
      && TraitFeatures(t).Ok?
      && TraitFeatures(t).value
         == [Feature(made.name, Join(TextLines(t.entries), "\n"), made.recharge)] + ItemFeatures(NamedItems(t.entries))
  {
    ExpandAllSplit(t.entries);
  }

  /** A trait gives at least its own feature, and that feature comes first. */
  lemma TraitFeaturesHead(t: Trait)
    requires TraitFeatures(t).Ok?
    ensures var made := MakeTraitAction(t.name);
      && TraitFeatures(t).value != []
      && TraitFeatures(t).value[0].name == made.name && TraitFeatures(t).value[0].recharge == made.recharge
  {
    var made := MakeTraitAction(t.name);
    if IsSpecial(made.name) {
      var head := Feature(made.name, "", made.recharge);
      var es := t.entries;
      SpecialFoldHead([head.(text := FixLinks(es[0].s))], TextsOf(es[1..]));
    }
  }

  // ---------------------------------------------------------------------------------------------
  // Properties of the part heads

  lemma {:induction false} CapWordsLetters(t: string)
    requires CapWords(t)
    ensures forall i :: 0 <= i < |t| ==> IsUpper(t[i]) || IsLower(t[i]) || t[i] == ' '
    decreases |t|
  {
    var n := 1 + LowerRun(t[1..]);
    LowerRunLetters(t[1..]);
    if n < |t| {
      CapWordsLetters(t[n + 1..]);
      forall i | n + 1 <= i < |t| ensures IsUpper(t[i]) || IsLower(t[i]) || t[i] == ' ' {
        assert t[i] == t[n + 1..][i - n - 1];
      }
    }
    forall i | 1 <= i < n ensures IsLower(t[i]) {
      assert t[i] == t[1..][i - 1];
    }
  }

  lemma {:induction false} LowerRunLetters(s: string)
    ensures forall i :: 0 <= i < LowerRun(s) ==> IsLower(s[i])
  {
    if s != [] && IsLower(s[0]) {
      LowerRunLetters(s[1..]);
      forall i | 1 <= i < LowerRun(s) ensures IsLower(s[i]) {
        assert s[i] == s[1..][i - 1];
      }
    }
  }

  /** When nothing fits between `lo` and `q`, the search ends as it would from `lo`. */
  lemma {:induction false} NameEndSkips(u: string, q: nat, lo: nat)
    requires lo <= q
    requires forall k :: lo < k <= q ==> !NameFits(u, k)
    ensures NameEnd(u, q) == NameEnd(u, lo)
    decreases q
  {
    if q > lo {
      NameEndSkips(u, q - 1, lo);
    }
  }

  /** The name of a part is capitalised words, and the part is its numbering, name, one character, a space, and its text. */
  lemma PartHeadSound(e: string)
    requires PartHead(e).Some?
    ensures var (name, text) := PartHead(e).value;
      var p := NumberingLen(e);
      && CapWords(name) && NoLineBreak(text)
      && |e| == p + |name| + 2 + |text|
      && e[..p + |name|] == e[..p] + name && e[p + |name| + 1] == ' ' && e[p + |name| + 2..] == text
  {
    var p := NumberingLen(e);
    var u := e[p..];
    var q := NameEnd(u, |u| - 2).value;
    assert PartHead(e).value == (u[..q], u[q + 2..]);
    assert NameFits(u, q);
    SliceAfter(e, p, q);
  }

  /** The pieces of `e[p..]` around an end `q`, as pieces of `e`. */
  lemma SliceAfter(e: string, p: nat, q: nat)
    requires p + q + 2 <= |e|
    ensures e[p..][..q] == e[p..p + q] && e[..p + q] == e[..p] + e[p..][..q]
    ensures e[p..][q + 1] == e[p + q + 1] && e[p..][q + 2..] == e[p + q + 2..]
  {
    assert e[..p + q] == e[..p] + e[p..p + q];
  }

  lemma NameShape(name: string, c: char, text: string)
    ensures var u := name + [c, ' '] + text;
      && |u| == |name| + 2 + |text| && u[..|name|] == name && u[|name|] == c && u[|name| + 1] == ' '
      && u[|name| + 2..] == text
      && forall k :: |name| < k <= |u| ==> u[..k][|name|] == c
  {
    var u := name + [c, ' '] + text;
    assert u[..|name|] == name;
    assert u[|name| + 2..] == text;
  }

  /**
   * "Fire Ray. The dragon …" has the name "Fire Ray" and the text after ". ": a part written as a
   * name, a character other than a letter or space, a space and a line of text is read back.
   */
  lemma PartHeadOf(name: string, c: char, text: string)
    requires CapWords(name) && NoLineBreak(text)
    requires !IsLineTerminator(c) && !IsUpper(c) && !IsLower(c) && c != ' '
    ensures var r := PartHead(name + [c, ' '] + text);
      r.Some? && r.value.0 == name && r.value.1 == text
  {
    var u := name + [c, ' '] + text;
    NameShape(name, c, text);
    assert !IsDigit(u[0]) by { assert u[0] == name[0]; }
    assert NumberingLen(u) == 0;
    assert u[0..] == u;
    NoLongerName(name, c, text);
    NameEndSkips(u, |u| - 2, |name|);
    assert NameFits(u, |name|);
  }

  /** No longer name fits: it would take in the character after the name. */
  lemma NoLongerName(name: string, c: char, text: string)
    requires !IsUpper(c) && !IsLower(c) && c != ' '
    ensures var u := name + [c, ' '] + text;
      forall k :: |name| < k <= |u| - 2 ==> !NameFits(u, k)
  {
    var u := name + [c, ' '] + text;
    NameShape(name, c, text);
    forall k | |name| < k <= |u| - 2 ensures !NameFits(u, k) {
      if CapWords(u[..k]) {
        CapWordsLetters(u[..k]);
      }
    }
  }

  lemma NumberingOf(d: string, v: string)
    requires d != [] && AllDigits(d)
    ensures var e := d + ". " + v; NumberingLen(e) == |d| + 2 && e[|d| + 2..] == v
  {
    var e := d + ". " + v;
    assert e == d + (". " + v);
    DigitRunOfPrefix(d, ". " + v);
    assert e[|d|] == '.' && e[|d| + 1] == ' ';
    assert e[|d| + 2..] == v;
  }

  /** A part read after its numbering is read as the rest alone would be. */
  lemma PartHeadAfterNumbering(e: string, v: string)
    requires NumberingLen(e) + |v| == |e| && e[NumberingLen(e)..] == v && NumberingLen(v) == 0
    ensures PartHead(e) == PartHead(v)
  {
    assert v[0..] == v;
  }

  /** "2. Fear Ray. …": a numbered part is read the same way, the numbering dropped. */
  lemma PartHeadNumbered(n: nat, name: string, c: char, text: string)
    requires CapWords(name) && NoLineBreak(text)
    requires !IsLineTerminator(c) && !IsUpper(c) && !IsLower(c) && c != ' '
    ensures var r := PartHead(NatToString(n) + ". " + (name + [c, ' '] + text));
      r.Some? && r.value.0 == name && r.value.1 == text
  {
    var d := NatToString(n);
    var v := name + [c, ' '] + text;
    NumberingOf(d, v);
    assert !IsDigit(v[0]) by { assert v[0] == name[0]; }
    assert NumberingLen(v) == 0;
    PartHeadAfterNumbering(d + ". " + v, v);
    PartHeadOf(name, c, text);
  }

  // ---------------------------------------------------------------------------------------------
  // Properties of the fold

  function FeatureNames(fs: seq<Feature>): (r: seq<string>)
    ensures |r| == |fs|
  {
    if fs == [] then [] else [fs[0].name] + FeatureNames(fs[1..])
  }

  /** The names of the parts that start a new feature, in order. */
  function PartNames(es: seq<string>): seq<string> {
    if es == [] then []
    else (match PartHead(es[0]) case Some((name, _)) => [name] case None => []) + PartNames(es[1..])
  }

  lemma {:induction false} FeatureNamesAppend(a: seq<Feature>, b: seq<Feature>)
    ensures FeatureNames(a + b) == FeatureNames(a) + FeatureNames(b)
    decreases |a|
  {
    if a != [] {
      assert (a + b)[1..] == a[1..] + b;
      FeatureNamesAppend(a[1..], b);
    } else {
      assert a + b == b;
    }
  }

  lemma SpecialStepNames(acc: seq<Feature>, e: string)
    requires acc != []
    ensures FeatureNames(SpecialStep(acc, e))
      == FeatureNames(acc) + (match PartHead(e) case Some((name, _)) => [name] case None => [])
    ensures SpecialStep(acc, e)[0].name == acc[0].name && SpecialStep(acc, e)[0].recharge == acc[0].recharge
  {
    match PartHead(e)
    case Some((name, text)) =>
      FeatureNamesAppend(acc, [Feature(name, FixLinks(text), None)]);
    case None =>
      var last := acc[|acc| - 1];
      var init := acc[..|acc| - 1];
      assert acc == init + [last];
      FeatureNamesAppend(init, [last]);
      FeatureNamesAppend(init, [last.(text := last.text + "\n" + e)]);
  }

  /**
   * Folding the parts keeps the features so far and adds one feature per part whose head matches,
   * named by that head, in part order; every other part is added to the text of the feature
   * before it.
   */
  lemma {:induction false} SpecialFoldNames(acc: seq<Feature>, es: seq<string>)
    requires acc != []
    ensures FeatureNames(SpecialFold(acc, es)) == FeatureNames(acc) + PartNames(es)
    decreases |es|
  {
    if es != [] {
      SpecialStepNames(acc, es[0]);
      SpecialFoldNames(SpecialStep(acc, es[0]), es[1..]);
    }
  }

  lemma {:induction false} SpecialFoldHead(acc: seq<Feature>, es: seq<string>)
    requires acc != []
    ensures SpecialFold(acc, es)[0].name == acc[0].name && SpecialFold(acc, es)[0].recharge == acc[0].recharge
    decreases |es|
  {
    if es != [] {
      SpecialStepNames(acc, es[0]);
      SpecialFoldHead(SpecialStep(acc, es[0]), es[1..]);
    }
  }

  /** A multi-part ability fails exactly when it has no parts or one of its parts is not a string. */
  lemma SpecialListFails(action: Feature, entries: seq<Entry>)
    ensures SpecialList(action, entries).Err? <==> entries == [] || exists i :: 0 <= i < |entries| && !entries[i].Text?
  {
  }

  /** `processSpecialList`, step by step: the first part sets the text, each later part is pushed or appended. */
  method ProcessSpecialList(action: Feature, entries: seq<Entry>) returns (r: Result<seq<Feature>>)
    ensures r == SpecialList(action, entries)
  {
    if entries == [] || !entries[0].Text? {
      return Err("entries[0] is not a string");
    }
    var i := 1;
    while i < |entries|
      invariant 1 <= i <= |entries|
      invariant forall k :: 1 <= k < i ==> entries[k].Text?
    {
      if !entries[i].Text? {
        return Err("entry.match is not a function");
      }
      i := i + 1;
    }
    var result := FoldParts([action.(text := FixLinks(entries[0].s))], TextsOf(entries[1..]));
    r := Ok(result);
  }

  /** The reduction over the later parts: a matching head pushes a feature, any other part extends the last. */
  method FoldParts(acc: seq<Feature>, parts: seq<string>) returns (result: seq<Feature>)
    requires acc != []
    ensures result == SpecialFold(acc, parts)
  {
    result := acc;
    var i := 0;
    while i < |parts|
      invariant 0 <= i <= |parts|
      invariant result != []
      invariant SpecialFold(result, parts[i..]) == SpecialFold(acc, parts)
    {
      var e := parts[i];
      assert parts[i..][0] == e && parts[i..][1..] == parts[i + 1..];
      match PartHead(e) {
        case Some((name, text)) =>
          result := result + [Feature(name, FixLinks(text), None)];
        case None =>
          var last := result[|result| - 1];
          result := result[..|result| - 1] + [last.(text := last.text + "\n" + e)];
      }
      i := i + 1;
    }
    assert parts[|parts|..] == [];
  }

  lemma {:induction false} TextsOfAt(es: seq<Entry>, k: nat)
    requires forall i :: 0 <= i < |es| ==> es[i].Text?
    requires k < |es|
    ensures TextsOf(es)[k] == es[k].s
    decreases k
  {
    if k > 0 {
      TextsOfAt(es[1..], k - 1);
    }
  }
}
