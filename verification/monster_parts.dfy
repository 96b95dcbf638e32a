/**
 * The pieces of a monster record: armour class (`processAC`), hit points (`processHP`), skills
 * and saving throws (`processSkills`, `objMap`), legendary actions, lair actions and regional
 * effects, variants (`addVariant`, `entryStringifier`) and environments.
 */
module MonsterParts {
  import opened Wrappers
  import opened Text
  import opened Collections
  import opened Sorting
  import opened Markup
  import opened Grammars
  import opened Traits
  import opened External
  import opened Statblock
  import opened Spellcasting

  /** A string field is truthy when present and not empty. */
  predicate Truthy(o: Option<string>) {
    o.Some? && o.value != ""
  }

  // ---------------------------------------------------------------------------------------------
  // Armour class

  /** An entry of `ac`: a bare number, or an object with its armour class, sources, condition and braces flag. */
  datatype AcEntry =
    | AcNumber(n: int)
    | AcObject(ac: int, from: Option<seq<string>>, condition: Option<string>, braces: bool)

  /** `appendToList`: the item after a ", " when the list so far is not empty. */
  function AppendToList(s: string, item: string): string {
    if s == "" then item else s + ", " + item
  }

  /** A conditional armour class in braces: appended in parentheses, with no comma. */
  predicate Braced(e: AcEntry) {
    e.AcObject? && Truthy(e.condition) && e.braces
  }

  /** The text of an entry that is appended as a list item. */
  function AcPiece(e: AcEntry): string {
    match e
    case AcNumber(n) => IntToString(n)
    case AcObject(ac, from, condition, _) =>
      var withFrom := if from.Some? then IntToString(ac) + " (" + Join(FixLinksAll(from.value), ", ") + ")" else IntToString(ac);
      if Truthy(condition) then withFrom + " " + FixLinks(condition.value) else withFrom
  }

  function AcStep(acc: string, e: AcEntry): string {
    if Braced(e) then acc + " (" + IntToString(e.ac) + " " + FixLinks(e.condition.value) + ")"
    else AppendToList(acc, AcPiece(e))
  }

  /** `ac.reduce(step, acc)`. */
  function AcFrom(acc: string, ac: seq<AcEntry>): string
    decreases |ac|
  {
    if ac == [] then acc else AcFrom(AcStep(acc, ac[0]), ac[1..])
  }

  /** `processAC`. */
  function ProcessAC(ac: seq<AcEntry>): string {
    AcFrom("", ac)
  }

  function AcPieces(ac: seq<AcEntry>): (r: seq<string>)
    ensures |r| == |ac|
  {
    if ac == [] then [] else [AcPiece(ac[0])] + AcPieces(ac[1..])
  }

  lemma IntToStringNonEmpty(n: int)
    ensures IntToString(n) != ""
  {
  }

  lemma AcPieceNonEmpty(e: AcEntry)
    ensures AcPiece(e) != ""
  {
    match e
    case AcNumber(n) => IntToStringNonEmpty(n);
    case AcObject(ac, _, _, _) => IntToStringNonEmpty(ac);
  }

  lemma {:induction false} AcFromSnoc(acc: string, ac: seq<AcEntry>, e: AcEntry)
    ensures AcFrom(acc, ac + [e]) == AcStep(AcFrom(acc, ac), e)
    decreases |ac|
  {
    if ac == [] {
      assert [] + [e] == [e];
      assert [e][1..] == [];
    } else {
      assert (ac + [e])[0] == ac[0] && (ac + [e])[1..] == ac[1..] + [e];
      AcFromSnoc(AcStep(acc, ac[0]), ac[1..], e);
    }
  }

  lemma AcPiecesSnoc(ac: seq<AcEntry>, e: AcEntry)
    ensures AcPieces(ac + [e]) == AcPieces(ac) + [AcPiece(e)]
  {
    AcPiecesAppend(ac, [e]);
    assert [e][1..] == [];
  }

  lemma {:induction false} AcPiecesAppend(a: seq<AcEntry>, b: seq<AcEntry>)
    ensures AcPieces(a + b) == AcPieces(a) + AcPieces(b)
    decreases |a|
  {
    if a == [] {
      assert a + b == b;
    } else {
      assert (a + b)[0] == a[0] && (a + b)[1..] == a[1..] + b;
      AcPiecesAppend(a[1..], b);
    }
  }

  /** The empty list gives "", and without braced entries the pieces are joined with ", ". */
  lemma {:induction false} ProcessACJoins(ac: seq<AcEntry>)
    requires forall i :: 0 <= i < |ac| ==> !Braced(ac[i])
    ensures ProcessAC(ac) == Join(AcPieces(ac), ", ")
    ensures ac == [] <==> ProcessAC(ac) == ""
    decreases |ac|
  {
    if ac != [] {
      var init, e := ac[..|ac| - 1], ac[|ac| - 1];
      assert ac == init + [e];
      ProcessACJoins(init);
      AcFromSnoc("", init, e);
      AcPiecesSnoc(init, e);
      AcPieceNonEmpty(e);
      if init == [] {
        assert AcPieces(ac) == [AcPiece(e)];
      } else {
        JoinAppend(AcPieces(init), AcPiece(e), ", ");
      }
    }
  }

  /** A braced conditional entry is appended as " (<ac> <condition>)", without a comma. */
  lemma ProcessACBraced(ac: seq<AcEntry>, e: AcEntry)
    requires Braced(e)
    ensures ProcessAC(ac + [e]) == ProcessAC(ac) + " (" + IntToString(e.ac) + " " + FixLinks(e.condition.value) + ")"
  {
    AcFromSnoc("", ac, e);
  }

  /** `[12, {ac: 15, from: ["shield"]}]` reads "12, 15 (shield)": a number, then a value with its sources. */
  lemma ProcessACWithSources(n: int, m: int, from: seq<string>)
    ensures ProcessAC([AcNumber(n), AcObject(m, Some(from), None, false)])
      == IntToString(n) + ", " + (IntToString(m) + " (" + Join(FixLinksAll(from), ", ") + ")")
  {
    var ac := [AcNumber(n), AcObject(m, Some(from), None, false)];
    assert AcPieces(ac) == [AcPiece(ac[0]), AcPiece(ac[1])] by {
      assert AcPieces(ac[1..][1..]) == [];
    }
    ProcessACJoins(ac);
    assert [AcPiece(ac[0]), AcPiece(ac[1])][..1] == [AcPiece(ac[0])];
  }

  // ---------------------------------------------------------------------------------------------
  // Hit points

  /** The `hp` field: a special text, or an average and a dice formula. */
  datatype Hp = Hp(special: Option<string>, average: int, formula: string)

  /** The `HP` output: a text, or 0 when a special text does not start with an average and a formula. */
  datatype HpValue = HpText(s: string) | HpZero

  /** `processHP`. */
  function ProcessHP(hp: Hp): HpValue {
    if Truthy(hp.special) then
      match HpSpecialEnd(hp.special.value)
      case Some(n) => HpText(hp.special.value[..n])
      case None => HpZero
    else HpText(IntToString(hp.average) + " (" + ReplaceFirst(MatchDigitSpacing, hp.formula) + ")")
  }

  /** A special text that starts "<avg> (<a>d<b><sign><c>)" keeps exactly that start. */
  lemma ProcessHPSpecial(avg: string, a: string, b: string, sign: char, c: string, rest: string)
    requires avg != [] && a != [] && b != [] && c != []
    requires AllDigits(avg) && AllDigits(a) && AllDigits(b) && AllDigits(c)
    requires sign == '+' || sign == '-'
    ensures var hp := avg + " (" + a + "d" + b + [sign] + c + ")";
      ProcessHP(Hp(Some(hp + rest), 0, "")) == HpText(hp)
  {
    var hp := avg + " (" + a + "d" + b + [sign] + c + ")";
    HpSpecialOf(avg, a, b, sign, c, rest);
    assert (hp + rest)[..|hp|] == hp;
  }

  function Formula(a: string, b: string, sign: char, c: string): string {
    a + "d" + b + [sign] + c
  }

  /** No digit, sign, digit sequence starts before the last digit of the die size. */
  lemma FormulaNoEarlyMatch(a: string, b: string, sign: char, c: string)
    requires a != [] && b != [] && c != []
    requires AllDigits(a) && AllDigits(b)
    ensures forall i :: 0 <= i < |a| + |b| ==> MatchDigitSpacing(Formula(a, b, sign, c)[i..]).None?
  {
    var t := Formula(a, b, sign, c);
    forall i | 0 <= i < |a| + |b| ensures MatchDigitSpacing(t[i..]).None? {
      assert t[i..][1] == t[i + 1];
      if i < |a| - 1 {
        assert t[i + 1] == a[i + 1];
      } else if i == |a| - 1 {
        assert t[i + 1] == 'd';
      } else if i == |a| {
        assert t[i] == 'd';
      } else {
        assert t[i + 1] == b[i - |a|];
      }
    }
  }

  /** The formula as shown: the sign spaced out. */
  function Spaced(a: string, b: string, sign: char, c: string): string {
    a + "d" + b + " " + [sign] + " " + c
  }

  /** What the first match rewrites to, followed by the rest of the modifier. */
  function SpacedTail(b: string, sign: char, c: string): string
    requires b != [] && c != []
  {
    [b[|b| - 1]] + " " + [sign] + " " + [c[0]] + c[1..]
  }

  /** From the last digit of the die size, the sign is spaced out and the rest copied. */
  lemma FormulaMatchAt(a: string, b: string, sign: char, c: string)
    requires a != [] && b != [] && c != []
    requires AllDigits(b) && AllDigits(c) && (sign == '+' || sign == '-')
    ensures ReplaceFirst(MatchDigitSpacing, Formula(a, b, sign, c)[|a| + |b|..]) == SpacedTail(b, sign, c)
  {
    var t := Formula(a, b, sign, c);
    var u := t[|a| + |b|..];
    assert u == [b[|b| - 1], sign] + c;
    assert u[3..] == c[1..];
  }

  lemma FormulaSpaced(a: string, b: string, sign: char, c: string)
    requires b != [] && c != []
    ensures Formula(a, b, sign, c)[..|a| + |b|] + SpacedTail(b, sign, c) == Spaced(a, b, sign, c)
  {
    var t := Formula(a, b, sign, c);
    assert t[..|a| + |b|] == a + "d" + b[..|b| - 1];
    assert b == b[..|b| - 1] + [b[|b| - 1]];
    assert c == [c[0]] + c[1..];
  }

  /** A formula "<a>d<b><sign><c>" is shown with spaces around its sign: "2d8+2" becomes "2d8 + 2". */
  lemma ProcessHPFormula(average: nat, a: string, b: string, sign: char, c: string)
    requires a != [] && b != [] && c != []
    requires AllDigits(a) && AllDigits(b) && AllDigits(c)
    requires sign == '+' || sign == '-'
    ensures ProcessHP(Hp(None, average, Formula(a, b, sign, c)))
      == HpText(IntToString(average) + " (" + (a + "d" + b + " " + [sign] + " " + c) + ")")
  {
    FormulaReplaced(a, b, sign, c);
  }

  lemma FormulaReplaced(a: string, b: string, sign: char, c: string)
    requires a != [] && b != [] && c != []
    requires AllDigits(a) && AllDigits(b) && AllDigits(c)
    requires sign == '+' || sign == '-'
    ensures ReplaceFirst(MatchDigitSpacing, Formula(a, b, sign, c)) == Spaced(a, b, sign, c)
  {
    var t, k := Formula(a, b, sign, c), |a| + |b|;
    FormulaNoEarlyMatch(a, b, sign, c);
    ReplaceFirstCopies(MatchDigitSpacing, t, k);
    FormulaMatchAt(a, b, sign, c);
    FormulaSpaced(a, b, sign, c);
  }

  // ---------------------------------------------------------------------------------------------
  // Saving throws and skills

  /** "<Name> <value>", as `objMap` callbacks render a save or a skill. */
  function Phrase(lk: Lookups, value: string, name: string): string {
    lk.titleCase(name) + " " + value
  }

  function PhraseOf(lk: Lookups): (string, string) -> string {
    (value, name) => Phrase(lk, value, name)
  }

  /** The saving throws: each "<Ability> <bonus>", in property order, joined with ", ". */
  function SavingThrows(lk: Lookups, save: seq<(string, string)>): string {
    Join(ObjMap(save, PhraseOf(lk)), ", ")
  }

  /**
   * The `skill` field: the bonus of each skill in property order, and the choices of the
   * `other` key (its first element's `oneOf`), which never appears among the bonuses.
   */
  datatype Skills = Skills(bonuses: seq<(string, string)>, other: Option<seq<(string, string)>>)

  /** The `skills` output: every skill but `other`, as "<Skill> <bonus>", joined with ", ". */
  function SkillsText(lk: Lookups, skills: Skills): string {
    Join(ObjMap(skills.bonuses, PhraseOf(lk)), ", ")
  }

  const AdditionalSkillsName := "Additional Skill Proficiencies"

  /** The trait that `processSkills` appends to the monster's traits for the `other` choices. */
  function AdditionalSkills(lk: Lookups, monsterName: string, choices: seq<(string, string)>): Trait {
    Trait(AdditionalSkillsName, [Text(
      "The " + monsterName + " also has one of the following skill proficiencies: "
      + Join(ObjMap(choices, PhraseOf(lk)), ", "))])
  }

  /** `monster.trait` after `processSkills`: the `other` trait is appended, creating the list if needed. */
  function TraitsAfterSkills(lk: Lookups, monsterName: string, skills: Skills, traits: Option<seq<Trait>>): (r: Option<seq<Trait>>)
    ensures skills.other.None? ==> r == traits
    ensures skills.other.Some? ==>
      (r.Some? && |r.value| >= 1 && r.value[..|r.value| - 1] == traits.GetOr([])
       && r.value[|r.value| - 1].name == AdditionalSkillsName)
  {
    match skills.other
    case None => traits
    case Some(choices) => Some(traits.GetOr([]) + [AdditionalSkills(lk, monsterName, choices)])
  }

  /** Each skill is listed once, in property order: the `i`-th phrase names the `i`-th skill. */
  lemma SkillsListed(lk: Lookups, skills: Skills, i: nat)
    requires i < |skills.bonuses|
    ensures ObjMap(skills.bonuses, PhraseOf(lk))[i] == lk.titleCase(skills.bonuses[i].0) + " " + skills.bonuses[i].1
  {
    ObjMapAt(skills.bonuses, PhraseOf(lk), i);
  }

  // ---------------------------------------------------------------------------------------------
  // Legendary actions

  datatype LegendaryIn = LegendaryIn(name: Option<string>, entries: seq<string>)

  datatype LegendaryAction = LegendaryAction(name: string, text: string, cost: int)

  function NoteSuffix(note: Option<string>): string {
    match note
    case Some(n) => " (" + n + ")"
    case None => ""
  }

  /**
   * One named legendary action: with a cost in parentheses, the trimmed name before them, the
   * note after the cost in parentheses, and the cost read as a number; otherwise the name as it
   * is and a cost of 1.
   */
  function LegendaryOut(name: string, entries: seq<string>): (r: LegendaryAction)
    ensures 0 <= r.cost <= 9
  {
    var text := FixLinks(Join(entries, "\n"));
    match LegendaryParts(name)
    case Some(p) =>
      LegendaryPartsCost(name);
      LegendaryAction(Trim(p.base) + NoteSuffix(p.note), text, ParseInt(p.cost).value)
    case None => LegendaryAction(name, text, 1)
  }

  /** `legendary.map(…).filter(l => !!l)`: the nameless entries are dropped. */
  function LegendaryActions(ls: seq<LegendaryIn>): (r: seq<LegendaryAction>)
    ensures |r| <= |ls|
  {
    if ls == [] then [] else LegendaryHead(ls[0]) + LegendaryActions(ls[1..])
  }

  /** What one entry contributes: its action when it is named, nothing otherwise. */
  function LegendaryHead(l: LegendaryIn): (r: seq<LegendaryAction>)
    ensures |r| <= 1
  {
    if Truthy(l.name) then [LegendaryOut(l.name.value, l.entries)] else []
  }

  /** `legendaryActions || 3`. */
  function LegendaryPoints(given: Option<int>): int {
    if given.Some? && given.value != 0 then given.value else 3
  }

  lemma {:induction false} LegendaryActionsAppend(a: seq<LegendaryIn>, b: seq<LegendaryIn>)
    ensures LegendaryActions(a + b) == LegendaryActions(a) + LegendaryActions(b)
    decreases |a|
  {
    if a == [] {
      assert a + b == b;
    } else {
      assert (a + b)[0] == a[0] && (a + b)[1..] == a[1..] + b;
      LegendaryActionsAppend(a[1..], b);
      Assoc(LegendaryHead(a[0]), LegendaryActions(a[1..]), LegendaryActions(b));
    }
  }

  /** A nameless entry contributes nothing wherever it stands. */
  lemma LegendaryNamelessDropped(a: seq<LegendaryIn>, l: LegendaryIn, b: seq<LegendaryIn>)
    requires !Truthy(l.name)
    ensures LegendaryActions(a + [l] + b) == LegendaryActions(a + b)
  {
    assert LegendaryActions([l]) == [] by {
      assert [l][1..] == [];
    }
    LegendaryActionsAppend(a, [l]);
    assert LegendaryActions(a + [l]) == LegendaryActions(a);
    LegendaryActionsAppend(a + [l], b);
    LegendaryActionsAppend(a, b);
  }

  /** When every entry is named, there is one action per entry, in order. */
  lemma {:induction false} LegendaryAllNamed(ls: seq<LegendaryIn>)
    requires forall i :: 0 <= i < |ls| ==> ls[i].name.Some? && ls[i].name.value != ""
    ensures |LegendaryActions(ls)| == |ls|
    ensures forall i :: 0 <= i < |ls| ==> LegendaryActions(ls)[i] == LegendaryOut(ls[i].name.value, ls[i].entries)
    decreases |ls|
  {
    if ls != [] {
      assert forall i :: 1 <= i < |ls| ==> ls[1..][i - 1] == ls[i];
      LegendaryAllNamed(ls[1..]);
    }
  }

  /** "Wing Attack (Costs 2 Actions)": the name before the parentheses, and the cost they give. */
  lemma LegendaryCost(base: string, costs: bool, uses: nat, upTo: Option<(char, nat)>, cap: bool, note: Option<string>, rest: string, entries: seq<string>)
    requires base != [] && base[0] != '(' && '(' !in base
    requires uses < 10 && (upTo.Some? ==> upTo.value.1 < 10 && (upTo.value.0 == '-' || upTo.value.0 == EnDash))
    requires note.Some? ==> note.value != [] && ')' !in note.value
    ensures var r := LegendaryOut(base + "(" + CostText(costs, uses, upTo, cap, note) + rest, entries);
      r.cost == uses && r.name == Trim(base) + NoteSuffix(note)
  {
    LegendaryPartsOf(base, costs, uses, upTo, cap, note, rest);
  }

  /** A name without parentheses is kept, and the action costs 1. */
  lemma LegendaryPlain(name: string, entries: seq<string>)
    requires '(' !in name
    ensures LegendaryOut(name, entries).name == name && LegendaryOut(name, entries).cost == 1
  {
    LegendaryPartsWithoutParen(name);
  }

  // ---------------------------------------------------------------------------------------------
  // Lair actions and regional effects

  /** An entry of `lairActions` or `regionalEffects`: a string, or an object with (perhaps) `items`. */
  datatype LairEntry = LairText(s: string) | LairObject(items: Option<seq<string>>)

  datatype LegendaryGroup = LegendaryGroup(lairActions: Option<seq<LairEntry>>, regionalEffects: Option<seq<LairEntry>>)

  /** What a legendary group adds to the monster. */
  datatype Lair = Lair(lairActions: Option<seq<string>>, regionalEffects: Option<seq<string>>, regionalEffectsFade: Option<string>)

  const NoLair := Lair(None, None, None)

  function AllTexts(es: seq<LairEntry>): bool {
    forall i :: 0 <= i < |es| ==> es[i].LairText?
  }

  function LairTexts(es: seq<LairEntry>): (r: seq<string>)
    ensures |r| <= |es|
  {
    if es == [] then [] else (match es[0] case LairText(s) => [s] case _ => []) + LairTexts(es[1..])
  }

  /** `es.filter(isObject)[0].items`: the items of the first object. */
  function FirstItems(es: seq<LairEntry>): Result<seq<string>> {
    if es == [] then Err("TypeError: Cannot read properties of undefined (reading 'items')")
    else match es[0]
      case LairObject(items) =>
        if items.Some? then Ok(items.value) else Err("TypeError: Cannot read properties of undefined (reading 'map')")
      case LairText(_) => FirstItems(es[1..])
  }

  /** The lair actions: every string normalised, or else the normalised items of the first object. */
  function LairActions(es: seq<LairEntry>): Result<seq<string>> {
    if AllTexts(es) then Ok(FixLinksAll(LairTexts(es)))
    else
      var items :- FirstItems(es);
      Ok(FixLinksAll(items))
  }

  /** The regional effects: the items of the first object, and the last string as the fading text. */
  function RegionalEffects(es: seq<LairEntry>): Result<(seq<string>, string)> {
    var items :- FirstItems(es);
    var texts := LairTexts(es);
    if texts == [] then Err("TypeError: Cannot read properties of undefined (reading 'replace')")
    else Ok((FixLinksAll(items), FixLinks(texts[|texts| - 1])))
  }

  /** The lair part of the monster, from its legendary group when one is registered under its key. */
  function ProcessLair(groups: seq<(string, LegendaryGroup)>, key: Option<string>): Result<Lair> {
    match Lookup(groups, key.GetOr("undefined"))
    case None => Ok(NoLair)
    case Some(g) =>
      var lair :- (if g.lairActions.Some? then
                     var a :- LairActions(g.lairActions.value);
                     Ok(Some(a))
                   else Ok(None));
      if g.regionalEffects.Some? then
        var effects :- RegionalEffects(g.regionalEffects.value);
        Ok(Lair(lair, Some(effects.0), Some(effects.1)))
      else Ok(Lair(lair, None, None))
  }

  lemma {:induction false} LairTextsAll(es: seq<LairEntry>)
    requires AllTexts(es)
    ensures |LairTexts(es)| == |es| && forall i :: 0 <= i < |es| ==> LairTexts(es)[i] == es[i].s
    decreases |es|
  {
    if es != [] {
      assert forall i :: 1 <= i < |es| ==> es[1..][i - 1] == es[i];
      LairTextsAll(es[1..]);
    }
  }

  /** Lair actions given as strings are each normalised, one action per string, in order. */
  lemma LairActionsOfTexts(es: seq<LairEntry>)
    requires AllTexts(es)
    ensures LairActions(es).Ok? && |LairActions(es).value| == |es|
    ensures forall i :: 0 <= i < |es| ==> LairActions(es).value[i] == FixLinks(es[i].s)
  {
    LairTextsAll(es);
    forall i | 0 <= i < |es| ensures FixLinksAll(LairTexts(es))[i] == FixLinks(es[i].s) {
      FixLinksAllAt(LairTexts(es), i);
    }
  }

  /**
   * The items are found exactly when the first object entry (after any strings) has items, and
   * they are that object's items.
   */
  lemma {:induction false} FirstItemsOf(es: seq<LairEntry>, i: nat)
    requires i < |es| && es[i].LairObject? && forall j :: 0 <= j < i ==> es[j].LairText?
    ensures FirstItems(es).Ok? <==> es[i].items.Some?
    ensures FirstItems(es).Ok? ==> FirstItems(es).value == es[i].items.value
    decreases i
  {
    if i > 0 {
      forall j | 0 <= j < i - 1 ensures es[1..][j].LairText? {
        assert es[1..][j] == es[j + 1];
      }
      FirstItemsOf(es[1..], i - 1);
    }
  }

  /** Without any object entry there are no items to read. */
  lemma {:induction false} FirstItemsOfTexts(es: seq<LairEntry>)
    requires AllTexts(es)
    ensures FirstItems(es).Err?
    decreases |es|
  {
    if es != [] {
      assert forall i :: 1 <= i < |es| ==> es[1..][i - 1] == es[i];
      FirstItemsOfTexts(es[1..]);
    }
  }

  // ---------------------------------------------------------------------------------------------
  // Variants

  /**
   * An entry of a variant: a string, or an object with its type, name, nested entries (when
   * `hasEntries`; an object without them has `entries == []`) and items.
   */
  datatype VariantEntry =
    | VText(s: string)
    | VObject(kind: string, name: Option<string>, hasEntries: bool, entries: seq<VariantEntry>, items: Option<seq<(string, string)>>)

  datatype Variant = Variant(name: string, entries: seq<VariantEntry>)

  /** `entryStringifier(entry, omitName)`: a string as it is; an object's entries on lines, after its name. */
  function Stringify(e: VariantEntry, omitName: bool): Result<string>
    decreases e
  {
    match e
    case VText(s) => Ok(s)
    case VObject(_, name, hasEntries, entries, _) =>
      if !hasEntries then Err("TypeError: Cannot read properties of undefined (reading 'map')")
      else
        var lines :- StringifyAll(entries);
        var text := Join(lines, "\n");
        if omitName then Ok(text) else Ok(name.GetOr("undefined") + ". " + text)
  }

  function StringifyAll(es: seq<VariantEntry>): (r: Result<seq<string>>)
    ensures r.Ok? ==> |r.value| == |es|
    decreases es
  {
    if es == [] then Ok([])
    else
      var head :- Stringify(es[0], false);
      var tail :- StringifyAll(es[1..]);
      Ok([head] + tail)
  }

  /** A variant ability placed by `addVariant`: among the actions or among the traits. */
  datatype Placed = Placed(feature: Feature, asAction: bool)

  /** `text.match(/{@hit|Attack:/)`. */
  predicate IsAttack(text: string) {
    Contains(text, "{@hit") || Contains(text, "Attack:")
  }

  /**
   * `addVariant`: the ability named "Variant: " and its name as `makeTraitAction` reads it, its
   * text normalised; an action when it has a recharge and is not a bonus action, when actions are
   * forced, or when it is an attack, and a trait otherwise.
   */
  function AddVariant(name: string, text: string, forceActions: bool): (r: Placed)
    ensures r.asAction <==> (MakeTraitAction(name).recharge.Some? && !Contains(text, "bonus action")) || forceActions || IsAttack(text)
    ensures r.feature.name == "Variant: " + MakeTraitAction(name).name && r.feature.text == FixLinks(text)
  {
    var made := MakeTraitAction(name);
    var action := (made.recharge.Some? && !Contains(text, "bonus action")) || forceActions || IsAttack(text);
    Placed(Feature("Variant: " + made.name, FixLinks(text), made.recharge), action)
  }

  /** An entry of the simple form: a string, or the "<name> <entry>" lines of its items. */
  function SimpleText(e: VariantEntry): Result<string> {
    match e
    case VText(s) => Ok(s)
    case VObject(_, _, _, _, items) =>
      if items.None? then Err("TypeError: Cannot read properties of undefined (reading 'map')")
      else Ok(Join(ItemLines(items.value), "\n"))
  }

  function ItemLines(items: seq<(string, string)>): (r: seq<string>)
    ensures |r| == |items|
  {
    if items == [] then [] else [items[0].0 + " " + items[0].1] + ItemLines(items[1..])
  }

  /** Every entry is a string or an object whose type is not "entries". */
  predicate Simple(es: seq<VariantEntry>) {
    forall i :: 0 <= i < |es| ==> es[i].VText? || es[i].kind != "entries"
  }

  /** `!!entry.match(/action options?[.:]/)`. */
  predicate AnnouncesActions(s: string) {
    Contains(s, "action option.") || Contains(s, "action option:") || Contains(s, "action options.") || Contains(s, "action options:")
  }

  /**
   * How a variant's abilities are made: `place` is `addVariant` (name, text, forced among the
   * actions) and `show` is `entryStringifier(entry, true)`. The variant processing below is
   * stated for any such pair, and the conversion uses `VariantPlacing`.
   */
  datatype Placing = Placing(place: (string, string, bool) -> Placed, show: VariantEntry -> Result<string>)

  const VariantPlacing := Placing((name, text, force) => AddVariant(name, text, force), e => Stringify(e, true))

  /**
   * The compound form: each object entry is one ability, named by its own name or the variant's,
   * forced among the actions when the last string before it announces action options.
   */
  function CompoundPlaced(pl: Placing, baseName: string, es: seq<VariantEntry>, explicitlyActions: bool): Result<seq<Placed>>
    decreases |es|
  {
    if es == [] then Ok([])
    else match es[0]
      case VText(s) => CompoundPlaced(pl, baseName, es[1..], AnnouncesActions(s))
      case VObject(_, name, _, _, _) =>
        var text :- pl.show(es[0]);
        var p := pl.place(if Truthy(name) then name.value else baseName, text, explicitlyActions);
        var rest :- CompoundPlaced(pl, baseName, es[1..], explicitlyActions);
        Ok([p] + rest)
  }

  /** What one variant adds: one ability of its whole text when simple, else one per object entry. */
  function VariantPlaced(pl: Placing, v: Variant): Result<seq<Placed>> {
    if Simple(v.entries) then
      var texts :- MapResult(SimpleText, v.entries);
      Ok([pl.place(v.name, Join(texts, "\n"), false)])
    else CompoundPlaced(pl, v.name, v.entries, false)
  }

  /** The abilities of all variants, in order; the first variant that fails ends the `forEach`. */
  function VariantsPlaced(pl: Placing, vs: seq<Variant>): Result<seq<Placed>>
    decreases |vs|
  {
    if vs == [] then Ok([])
    else
      var before :- VariantsPlaced(pl, vs[..|vs| - 1]);
      var last :- VariantPlaced(pl, vs[|vs| - 1]);
      Ok(before + last)
  }

  lemma VariantsPlacedNone(pl: Placing, vs: seq<Variant>)
    ensures VariantsPlaced(pl, vs[..0]) == Ok([])
  {
    assert vs[..0] == [];
  }

  /** A failure among the first variants is the failure of them all. */
  lemma {:induction false} VariantsPlacedFailsEarly(pl: Placing, vs: seq<Variant>, j: nat)
    requires j <= |vs| && VariantsPlaced(pl, vs[..j]).Err?
    ensures VariantsPlaced(pl, vs).Err? && VariantsPlaced(pl, vs).message == VariantsPlaced(pl, vs[..j]).message
    decreases |vs|
  {
    if j == |vs| {
      assert vs[..j] == vs;
    } else {
      var init := vs[..|vs| - 1];
      assert init[..j] == vs[..j];
      VariantsPlacedFailsEarly(pl, init, j);
    }
  }

  /** The variants are placed one after the other; the first that fails ends the placing. */
  lemma VariantsPlacedStep(pl: Placing, vs: seq<Variant>, i: nat)
    requires i < |vs| && VariantsPlaced(pl, vs[..i]).Ok?
    ensures VariantPlaced(pl, vs[i]).Ok? ==>
      (VariantsPlaced(pl, vs[..i + 1]).Ok?
       && VariantsPlaced(pl, vs[..i + 1]).value == VariantsPlaced(pl, vs[..i]).value + VariantPlaced(pl, vs[i]).value)
    ensures VariantPlaced(pl, vs[i]).Err? ==>
      VariantsPlaced(pl, vs).Err? && VariantsPlaced(pl, vs).message == VariantPlaced(pl, vs[i]).message
  {
    var next := vs[..i + 1];
    assert next[..|next| - 1] == vs[..i] && next[|next| - 1] == vs[i];
    if VariantPlaced(pl, vs[i]).Err? {
      VariantsPlacedFailsEarly(pl, vs, i + 1);
    }
  }

  function PlacedTraits(ps: seq<Placed>): seq<Feature> {
    if ps == [] then [] else TraitOf(ps[0]) + PlacedTraits(ps[1..])
  }

  function PlacedActions(ps: seq<Placed>): seq<Feature> {
    if ps == [] then [] else ActionOf(ps[0]) + PlacedActions(ps[1..])
  }

  function TraitOf(p: Placed): seq<Feature> {
    if p.asAction then [] else [p.feature]
  }

  function ActionOf(p: Placed): seq<Feature> {
    if p.asAction then [p.feature] else []
  }

  /** The abilities placed, wherever they land. */
  function Features(ps: seq<Placed>): (r: seq<Feature>)
    ensures |r| == |ps|
  {
    if ps == [] then [] else [ps[0].feature] + Features(ps[1..])
  }

  lemma {:induction false} PlacedTraitsAppend(a: seq<Placed>, b: seq<Placed>)
    ensures PlacedTraits(a + b) == PlacedTraits(a) + PlacedTraits(b)
    decreases |a|
  {
    if a == [] {
      assert a + b == b;
    } else {
      assert (a + b)[0] == a[0] && (a + b)[1..] == a[1..] + b;
      PlacedTraitsAppend(a[1..], b);
      Assoc(TraitOf(a[0]), PlacedTraits(a[1..]), PlacedTraits(b));
    }
  }

  lemma {:induction false} PlacedActionsAppend(a: seq<Placed>, b: seq<Placed>)
    ensures PlacedActions(a + b) == PlacedActions(a) + PlacedActions(b)
    decreases |a|
  {
    if a == [] {
      assert a + b == b;
    } else {
      assert (a + b)[0] == a[0] && (a + b)[1..] == a[1..] + b;
      PlacedActionsAppend(a[1..], b);
      Assoc(ActionOf(a[0]), PlacedActions(a[1..]), PlacedActions(b));
    }
  }

  /** Every variant ability lands in exactly one of the two lists. */
  lemma {:induction false} PlacedPartition(ps: seq<Placed>)
    ensures |PlacedTraits(ps)| + |PlacedActions(ps)| == |ps|
    ensures multiset(PlacedTraits(ps)) + multiset(PlacedActions(ps)) == multiset(Features(ps))
    decreases |ps|
  {
    if ps != [] {
      PlacedPartition(ps[1..]);
      assert multiset(TraitOf(ps[0])) + multiset(ActionOf(ps[0])) == multiset([ps[0].feature]);
    }
  }

  /** A simple variant is one ability holding all its text; its place depends on that text. */
  lemma SimpleVariant(v: Variant)
    requires Simple(v.entries) && forall i :: 0 <= i < |v.entries| ==> v.entries[i].VText?
    ensures VariantPlaced(VariantPlacing, v).Ok? && |VariantPlaced(VariantPlacing, v).value| == 1
    ensures VariantPlaced(VariantPlacing, v).value[0].feature.name == "Variant: " + MakeTraitAction(v.name).name
  {
    MapResultFails(SimpleText, v.entries);
  }

  // ---------------------------------------------------------------------------------------------
  // Environments

  /** `environment.sort(localeCompare).map(toTitleCase)`, when the list is not empty. */
  function Environments(lk: Lookups, env: Option<seq<string>>): (r: Option<seq<string>>)
    ensures r.Some? <==> env.Some? && env.value != []
    ensures r.Some? ==> |r.value| == |env.value|
  {
    if env.Some? && env.value != [] then Some(TitleCaseAll(lk, InsertionSort(env.value, lk.localeLe))) else None
  }

  function TitleCaseAll(lk: Lookups, xs: seq<string>): (r: seq<string>)
    ensures |r| == |xs|
  {
    if xs == [] then [] else [lk.titleCase(xs[0])] + TitleCaseAll(lk, xs[1..])
  }

  lemma {:induction false} TitleCaseAllAt(lk: Lookups, xs: seq<string>, i: nat)
    requires i < |xs|
    ensures TitleCaseAll(lk, xs)[i] == lk.titleCase(xs[i])
    decreases i
  {
    if i > 0 {
      TitleCaseAllAt(lk, xs[1..], i - 1);
    }
  }

  /**
   * With a consistent `localeCompare`, the environments are the monster's environments, each
   * title-cased, in locale order.
   */
  lemma EnvironmentsSorted(lk: Lookups, env: seq<string>)
    requires env != [] && TotalPreorderOn(lk.localeLe, env)
    ensures var r := Environments(lk, Some(env)).value;
      var sorted := InsertionSort(env, lk.localeLe);
      && SortedBy(sorted, lk.localeLe) && multiset(sorted) == multiset(env)
      && forall i :: 0 <= i < |r| ==> r[i] == lk.titleCase(sorted[i])
  {
    var sorted := InsertionSort(env, lk.localeLe);
    InsertionSortSorted(env, lk.localeLe);
    InsertionSortPermutes(env, lk.localeLe);
    forall i | 0 <= i < |sorted| ensures TitleCaseAll(lk, sorted)[i] == lk.titleCase(sorted[i]) {
      TitleCaseAllAt(lk, sorted, i);
    }
  }
}
