/**
 * Spellcasting blocks: `innateSpellProc` (at-will, constant, per-day/rest/week and levelled
 * groups), `processLeveledSpells`, `normalSpellProc`, `makeSpellList`, and the trait that
 * `processMonster` builds from each block.
 */
module Spellcasting {
  import opened Wrappers
  import opened Text
  import opened Collections
  import opened Sorting
  import opened Markup
  import opened Grammars
  import opened Traits
  import opened External
  import opened Statblock

  /** One spell level of a `spells` table: its slot count, if any, and its spells. */
  datatype LevelInfo = LevelInfo(slots: Option<int>, spells: seq<string>)

  /** The value of one key of a spellcasting block. */
  datatype UseValue =
    | Names(names: seq<string>)                    // will, constant: a list of spells
    | Groups(groups: seq<(string, seq<string>)>)   // daily, rest, weekly: uses ("1", "2e", …) to spells
    | Levels(levels: seq<(string, LevelInfo)>)     // spells: level ("0", "1", …) to slots and spells

  /**
   * A spellcasting block: its name, header and footer lines, and every other key with its value
   * in property order.
   */
  datatype Spellcasting = Spellcasting(
    name: string,
    headerEntries: Option<seq<string>>,
    footerEntries: Option<seq<string>>,
    uses: seq<(string, UseValue)>)

  /** The error of a value whose shape is not the one its key calls for. */
  const ShapeError := "TypeError: unexpected spell list shape"

  // ---------------------------------------------------------------------------------------------
  // Spell lists

  function FixLinksAll(names: seq<string>): (r: seq<string>)
    ensures |r| == |names|
  {
    if names == [] then [] else [FixLinks(names[0])] + FixLinksAll(names[1..])
  }

  /** `makeSpellList`: each spell with its markup normalised, separated by ", ". */
  function MakeSpellList(names: seq<string>): string {
    Join(FixLinksAll(names), ", ")
  }

  lemma {:induction false} FixLinksAllAt(names: seq<string>, i: nat)
    requires i < |names|
    ensures FixLinksAll(names)[i] == FixLinks(names[i])
    decreases i
  {
    if i > 0 {
      FixLinksAllAt(names[1..], i - 1);
    }
  }

  /** The list starts with the first spell and ends with the last, each normalised. */
  lemma MakeSpellListEnds(names: seq<string>)
    requires names != []
    ensures FixLinks(names[0]) <= MakeSpellList(names)
    ensures EndsWith(MakeSpellList(names), FixLinks(names[|names| - 1]))
  {
    FixLinksAllAt(names, 0);
    FixLinksAllAt(names, |names| - 1);
    JoinFirst(FixLinksAll(names), ", ");
    JoinLast(FixLinksAll(names), ", ");
  }

  // ---------------------------------------------------------------------------------------------
  // Levelled spells

  /** The key under which `spellObj[level]` looks a level up: the number rendered back, or "NaN". */
  function LevelKey(level: Option<int>): string {
    match level
    case Some(n) => IntToString(n)
    case None => "NaN"
  }

  /** One line of `processLeveledSpells`: "<level> (<slots>): <spells>". */
  function LevelLine(lk: Lookups, level: int, info: LevelInfo): string {
    lk.levelText(Some(level)) + " (" + SlotString(info.slots) + "): " + MakeSpellList(info.spells)
  }

  /** The line for one key of a `spells` table, which is looked up again by its parsed number. */
  function LevelLineAt(lk: Lookups, table: seq<(string, LevelInfo)>, key: string): Result<string> {
    var level := ParseInt(key);
    match Lookup(table, LevelKey(level))
    case None => Err("TypeError: Cannot read properties of undefined (reading 'slots')")
    case Some(info) =>
      Ok(lk.levelText(level) + " (" + SlotString(info.slots) + "): " + MakeSpellList(info.spells))
  }

  function LevelLineOf(lk: Lookups, table: seq<(string, LevelInfo)>): string -> Result<string> {
    key => LevelLineAt(lk, table, key)
  }

  /** `processLeveledSpells`: one line per key, in key order. */
  function ProcessLeveledSpells(lk: Lookups, table: seq<(string, LevelInfo)>): Result<seq<string>> {
    MapResult(LevelLineOf(lk, table), Keys(table))
  }

  /** A level key written as a number gives the line of that level with its own slots and spells. */
  lemma LevelLineAtCanonical(lk: Lookups, table: seq<(string, LevelInfo)>, i: nat, level: nat)
    requires i < |table| && table[i].0 == NatToString(level)
    requires forall j :: 0 <= j < i ==> table[j].0 != table[i].0
    ensures LevelLineAt(lk, table, table[i].0).Ok?
    ensures LevelLineAt(lk, table, table[i].0).value == LevelLine(lk, level, table[i].1)
  {
    ParseIntOfNatToString(level, "");
    assert NatToString(level) + "" == NatToString(level);
    LookupAt(table, i);
  }

  /**
   * A table whose keys are levels written as numbers, each once, gives one line per level, in
   * key order, each with that level's slot count and spells.
   */
  lemma LeveledSpellsCanonical(lk: Lookups, table: seq<(string, LevelInfo)>, levels: seq<nat>)
    requires |levels| == |table|
    requires forall i :: 0 <= i < |table| ==> table[i].0 == NatToString(levels[i])
    requires forall i, j :: 0 <= j < i < |table| ==> table[j].0 != table[i].0
    ensures ProcessLeveledSpells(lk, table).Ok?
    ensures |ProcessLeveledSpells(lk, table).value| == |table|
    ensures forall i :: 0 <= i < |table| ==>
      ProcessLeveledSpells(lk, table).value[i] == LevelLine(lk, levels[i], table[i].1)
  {
    var f := LevelLineOf(lk, table);
    var keys := Keys(table);
    forall i | 0 <= i < |keys| ensures f(keys[i]).Ok? && f(keys[i]).value == LevelLine(lk, levels[i], table[i].1) {
      LevelLineAtCanonical(lk, table, i, levels[i]);
    }
    MapResultFails(f, keys);
    forall i | 0 <= i < |table| ensures ProcessLeveledSpells(lk, table).value[i] == LevelLine(lk, levels[i], table[i].1) {
      MapResultAt(f, keys, i);
    }
  }

  /** `normalSpellProc`: the levelled lines of the `spells` key, which must be present. */
  function NormalSpellProc(lk: Lookups, uses: seq<(string, UseValue)>): Result<seq<string>> {
    var found: Option<UseValue> := Lookup(uses, "spells");
    if found.None? then Err("TypeError: Cannot convert undefined or null to object")
    else match found.value
      case Levels(table) => ProcessLeveledSpells(lk, table)
      case _ => Err(ShapeError)
  }

  // ---------------------------------------------------------------------------------------------
  // Innate spellcasting

  /** The keys that produce no lines. */
  predicate IsReserved(key: string) {
    key == "headerEntries" || key == "headerWill" || key == "name" || key == "footerEntries"
  }

  /** The period word of a per-period group: daily, rest and weekly uses. */
  function RechargePeriod(key: string): Option<string> {
    if key == "daily" then Some("day")
    else if key == "rest" then Some("rest")
    else if key == "weekly" then Some("week")
    else None
  }

  /** The keys that `innateSpellProc` knows how to render. */
  predicate Recognised(key: string) {
    key == "will" || key == "constant" || RechargePeriod(key).Some? || key == "spells"
  }

  /** `usesPerDay.slice(0, 1)`. */
  function HowMany(uses: string): (r: string)
    ensures |r| <= 1
  {
    if uses == [] then [] else uses[..1]
  }

  /** " each" is written for a key such as "2e" that groups more than one spell. */
  predicate Each(uses: string, spells: seq<string>) {
    EndsWith(uses, "e") && |spells| > 1
  }

  /** One line of a per-period group: "<n>/<period>[ each]: <spells>". */
  function GroupLine(uses: string, spells: seq<string>, period: string): string {
    HowMany(uses) + "/" + period + (if Each(uses, spells) then " each" else "") + ": " + MakeSpellList(spells)
  }

  function GroupLines(groups: seq<(string, seq<string>)>, period: string): (r: seq<string>)
    ensures |r| == |groups|
  {
    if groups == [] then [] else [GroupLine(groups[0].0, groups[0].1, period)] + GroupLines(groups[1..], period)
  }

  /**
   * The comparator `parseInt(b, 10) - parseInt(a, 10)` read as "a may stay before b": the count
   * of `b` is at most that of `a`, or one of them is not a number (the difference is `NaN`).
   */
  predicate UsesLe(a: string, b: string) {
    var x := ParseInt(a);
    var y := ParseInt(b);
    !(x.Some? && y.Some?) || y.value - x.value <= 0
  }

  /** The lines of a per-period group, sorted by their leading use count. */
  function SortedGroupLines(groups: seq<(string, seq<string>)>, period: string): seq<string> {
    InsertionSort(GroupLines(groups, period), UsesLe)
  }

  /** What one key of an innate block contributes: a line, or an array of lines, or an error. */
  function UseItem(lk: Lookups, use: (string, UseValue)): Result<Item<string>> {
    var (key, value) := use;
    if key == "will" then
      (match value case Names(ns) => Ok(One("At will: " + MakeSpellList(ns))) case _ => Err(ShapeError))
    else if key == "constant" then
      (match value case Names(ns) => Ok(One("Constant: " + MakeSpellList(ns))) case _ => Err(ShapeError))
    else if RechargePeriod(key).Some? then
      (match value
       case Groups(gs) => Ok(Many(SortedGroupLines(gs, RechargePeriod(key).value)))
       case _ => Err(ShapeError))
    else if key == "spells" then
      (match value
       case Levels(table) =>
         var lines :- ProcessLeveledSpells(lk, table);
         Ok(Many(lines))
       case _ => Err(ShapeError))
    else Err("Unrecognised spellUseInfo " + key)
  }

  function UseItemOf(lk: Lookups): ((string, UseValue)) -> Result<Item<string>> {
    use => UseItem(lk, use)
  }

  /** The keys `innateSpellProc` maps over: every key but the reserved ones, in property order. */
  function Unreserved(uses: seq<(string, UseValue)>): (r: seq<(string, UseValue)>)
    ensures |r| <= |uses|
  {
    if uses == [] then [] else UnreservedHead(uses[0]) + Unreserved(uses[1..])
  }

  /** One key kept, unless it is reserved. */
  function UnreservedHead(u: (string, UseValue)): (r: seq<(string, UseValue)>)
    ensures |r| <= 1
  {
    if IsReserved(u.0) then [] else [u]
  }

  /** `innateSpellProc`: the lines of each unreserved key, flattened, in key order. */
  function InnateSpellProc(lk: Lookups, uses: seq<(string, UseValue)>): Result<seq<string>> {
    var items :- MapResult(UseItemOf(lk), Unreserved(uses));
    Ok(FlattenItems(items))
  }

  lemma {:induction false} UnreservedAppend(a: seq<(string, UseValue)>, b: seq<(string, UseValue)>)
    ensures Unreserved(a + b) == Unreserved(a) + Unreserved(b)
    decreases |a|
  {
    if a == [] {
      assert a + b == b;
    } else {
      assert (a + b)[0] == a[0] && (a + b)[1..] == a[1..] + b;
      UnreservedAppend(a[1..], b);
      Assoc(UnreservedHead(a[0]), Unreserved(a[1..]), Unreserved(b));
    }
  }

  /** A reserved key produces no lines, wherever it stands. */
  lemma InnateIgnoresReserved(lk: Lookups, a: seq<(string, UseValue)>, key: string, value: UseValue, b: seq<(string, UseValue)>)
    requires IsReserved(key)
    ensures InnateSpellProc(lk, a + [(key, value)] + b) == InnateSpellProc(lk, a + b)
  {
    assert Unreserved([(key, value)]) == [] by {
      assert [(key, value)][1..] == [];
    }
    UnreservedAppend(a, [(key, value)]);
    assert Unreserved(a + [(key, value)]) == Unreserved(a);
    UnreservedAppend(a + [(key, value)], b);
    UnreservedAppend(a, b);
  }

  lemma {:induction false} UnreservedHas(uses: seq<(string, UseValue)>, i: nat)
    requires i < |uses| && !IsReserved(uses[i].0)
    ensures uses[i] in Unreserved(uses)
    decreases i
  {
    if i > 0 {
      UnreservedHas(uses[1..], i - 1);
      assert uses[1..][i - 1] == uses[i];
    }
  }

  lemma {:induction false} UnreservedFrom(uses: seq<(string, UseValue)>, u: (string, UseValue))
    requires u in Unreserved(uses)
    ensures u in uses && !IsReserved(u.0)
    decreases |uses|
  {
    if uses != [] && (IsReserved(uses[0].0) || u != uses[0]) {
      assert u in Unreserved(uses[1..]);
      UnreservedFrom(uses[1..], u);
    }
  }

  /**
   * An unrecognised key that is not reserved makes the block fail; a block fails only at an
   * unreserved key whose value cannot be rendered.
   */
  lemma InnateFails(lk: Lookups, uses: seq<(string, UseValue)>)
    ensures (exists i :: 0 <= i < |uses| && !IsReserved(uses[i].0) && !Recognised(uses[i].0)) ==> InnateSpellProc(lk, uses).Err?
    ensures InnateSpellProc(lk, uses).Err? <==> exists u :: u in uses && !IsReserved(u.0) && UseItem(lk, u).Err?
  {
    if exists i :: 0 <= i < |uses| && !IsReserved(uses[i].0) && !Recognised(uses[i].0) {
      var i :| 0 <= i < |uses| && !IsReserved(uses[i].0) && !Recognised(uses[i].0);
      assert UseItem(lk, uses[i]).Err?;
      InnateFailsAt(lk, uses, i);
    }
    if exists u :: u in uses && !IsReserved(u.0) && UseItem(lk, u).Err? {
      var u :| u in uses && !IsReserved(u.0) && UseItem(lk, u).Err?;
      var i :| 0 <= i < |uses| && uses[i] == u;
      InnateFailsAt(lk, uses, i);
    }
    if InnateSpellProc(lk, uses).Err? {
      InnateFailsOnly(lk, uses);
    }
  }

  /** An unreserved key whose value cannot be rendered fails the block. */
  lemma InnateFailsAt(lk: Lookups, uses: seq<(string, UseValue)>, i: nat)
    requires i < |uses| && !IsReserved(uses[i].0) && UseItem(lk, uses[i]).Err?
    ensures InnateSpellProc(lk, uses).Err?
  {
    var f := UseItemOf(lk);
    var xs := Unreserved(uses);
    UnreservedHas(uses, i);
    var k :| 0 <= k < |xs| && xs[k] == uses[i];
    assert f(xs[k]).Err?;
    MapResultFails(f, xs);
  }

  /** A failing block fails at an unreserved key whose value cannot be rendered. */
  lemma InnateFailsOnly(lk: Lookups, uses: seq<(string, UseValue)>)
    requires InnateSpellProc(lk, uses).Err?
    ensures exists u :: u in uses && !IsReserved(u.0) && UseItem(lk, u).Err?
  {
    var f := UseItemOf(lk);
    var xs := Unreserved(uses);
    MapResultFails(f, xs);
    var k :| 0 <= k < |xs| && f(xs[k]).Err?;
    UnreservedFrom(uses, xs[k]);
    assert UseItem(lk, xs[k]).Err?;
  }

  /** The keys mapped, split at an unreserved key: those before it, it, and those after it. */
  lemma UnreservedSplit(uses: seq<(string, UseValue)>, i: nat)
    requires i < |uses| && !IsReserved(uses[i].0)
    ensures Unreserved(uses) == Unreserved(uses[..i]) + ([uses[i]] + Unreserved(uses[i + 1..]))
  {
    var before := uses[..i];
    var rest := uses[i + 1..];
    assert uses == before + [uses[i]] + rest;
    assert Unreserved([uses[i]]) == [uses[i]] by {
      assert [uses[i]][1..] == [];
    }
    UnreservedAppend(before, [uses[i]]);
    UnreservedAppend(before + [uses[i]], rest);
    Assoc(Unreserved(before), [uses[i]], Unreserved(rest));
  }

  /** The first unrecognised key, when every key before it renders, is the one reported. */
  lemma InnateUnrecognised(lk: Lookups, uses: seq<(string, UseValue)>, i: nat)
    requires i < |uses| && !IsReserved(uses[i].0) && !Recognised(uses[i].0)
    requires forall j :: 0 <= j < i && !IsReserved(uses[j].0) ==> UseItem(lk, uses[j]).Ok?
    ensures InnateSpellProc(lk, uses).Err?
    ensures InnateSpellProc(lk, uses).message == "Unrecognised spellUseInfo " + uses[i].0
  {
    var f := UseItemOf(lk);
    var pre := Unreserved(uses[..i]);
    var tail := [uses[i]] + Unreserved(uses[i + 1..]);
    UnreservedSplit(uses, i);
    forall u | u in pre ensures f(u).Ok? {
      UnreservedFrom(uses[..i], u);
      var j :| 0 <= j < i && uses[..i][j] == u;
      assert uses[j] == u;
    }
    assert f(tail[0]).message == "Unrecognised spellUseInfo " + uses[i].0;
    MapResultPrefixOk(f, pre, tail);
  }

  // ---------------------------------------------------------------------------------------------
  // Properties of per-period groups

  /** A line that starts with one digit and then a non-digit: its use count is that digit. */
  predicate CountedLine(s: string) {
    |s| >= 2 && IsDigit(s[0]) && !IsDigit(s[1])
  }

  lemma CountedLineParses(s: string)
    requires CountedLine(s)
    ensures ParseInt(s).Some? && ParseInt(s).value == DigitValue(s[0]) && LeadingNumber(s) == DigitValue(s[0])
  {
    ParseIntOfDigitStart(s);
    LeadingNumberOneDigit(s);
  }

  /** A group whose key starts with a digit gives a line that starts with that count and "/". */
  lemma GroupLineCounted(uses: string, spells: seq<string>, period: string)
    requires uses != [] && IsDigit(uses[0])
    ensures var line := GroupLine(uses, spells, period);
      CountedLine(line) && line[0] == uses[0] && line[1] == '/' && LeadingNumber(line) == DigitValue(uses[0])
  {
    var line := GroupLine(uses, spells, period);
    assert HowMany(uses) == [uses[0]];
    assert line[0] == uses[0] && line[1] == '/';
    CountedLineParses(line);
  }

  /**
   * " each" follows the period exactly when the key ends in "e" and the group has more than one
   * spell; otherwise ": " follows it directly.
   */
  lemma GroupLineEach(uses: string, spells: seq<string>, period: string)
    ensures var line := GroupLine(uses, spells, period);
      var p := |HowMany(uses)| + 1 + |period|;
      && line[..p] == HowMany(uses) + "/" + period
      && (Each(uses, spells) ==> line[p..p + 7] == " each: ")
      && (!Each(uses, spells) ==> line[p..p + 2] == ": ")
      && (line[p] == ' ' <==> Each(uses, spells))
  {
  }

  lemma {:induction false} GroupLinesAt(groups: seq<(string, seq<string>)>, period: string, i: nat)
    requires i < |groups|
    ensures GroupLines(groups, period)[i] == GroupLine(groups[i].0, groups[i].1, period)
    decreases i
  {
    if i > 0 {
      GroupLinesAt(groups[1..], period, i - 1);
    }
  }

  /** On lines that start with a count, the comparator orders by count, descending. */
  lemma UsesLeCounted(a: string, b: string)
    requires CountedLine(a) && CountedLine(b)
    ensures UsesLe(a, b) <==> DigitValue(b[0]) <= DigitValue(a[0])
  {
    CountedLineParses(a);
    CountedLineParses(b);
  }

  /**
   * A per-period group whose keys start with a digit is rendered as a permutation of its lines
   * in which the use counts never increase.
   */
  lemma GroupSortedDescending(groups: seq<(string, seq<string>)>, period: string)
    requires forall i :: 0 <= i < |groups| ==> groups[i].0 != [] && IsDigit(groups[i].0[0])
    ensures var r := SortedGroupLines(groups, period);
      && multiset(r) == multiset(GroupLines(groups, period))
      && forall i, j :: 0 <= i < j < |r| ==> LeadingNumber(r[i]) >= LeadingNumber(r[j])
  {
    var lines := GroupLines(groups, period);
    forall x | x in lines ensures CountedLine(x) {
      var i :| 0 <= i < |lines| && lines[i] == x;
      GroupLinesAt(groups, period, i);
      GroupLineCounted(groups[i].0, groups[i].1, period);
    }
    assert TotalPreorderOn(UsesLe, lines) by {
      forall x, y | x in lines && y in lines ensures UsesLe(x, y) || UsesLe(y, x) {
        UsesLeCounted(x, y);
        UsesLeCounted(y, x);
      }
      forall x, y, z | x in lines && y in lines && z in lines && UsesLe(x, y) && UsesLe(y, z) ensures UsesLe(x, z) {
        UsesLeCounted(x, y);
        UsesLeCounted(y, z);
        UsesLeCounted(x, z);
      }
    }
    InsertionSortSorted(lines, UsesLe);
    InsertionSortPermutes(lines, UsesLe);
    var r := SortedGroupLines(groups, period);
    forall i, j | 0 <= i < j < |r| ensures LeadingNumber(r[i]) >= LeadingNumber(r[j]) {
      assert r[i] in multiset(lines) && r[j] in multiset(lines);
      UsesLeCounted(r[i], r[j]);
      CountedLineParses(r[i]);
      CountedLineParses(r[j]);
    }
  }

  // ---------------------------------------------------------------------------------------------
  // The spellcasting trait

  /**
   * The trait a spellcasting block becomes: named as `makeTraitAction` names it, its text the
   * normalised first header line, then the spell lines (innate for a block whose name starts
   * with "Innate", levelled otherwise), then the footer lines as they are.
   */
  function SpellcastingTrait(lk: Lookups, sc: Spellcasting): (r: Result<Feature>)
    ensures r.Ok? ==> r.value.name == MakeTraitAction(sc.name).name && r.value.recharge == MakeTraitAction(sc.name).recharge
  {
    var lines :- SpellLines(lk, sc);
    match sc.headerEntries
    case None => Err("TypeError: Cannot read properties of undefined (reading '0')")
    case Some(header) =>
      if header == [] then Err("TypeError: Cannot read properties of undefined (reading 'replace')")
      else
        var made := MakeTraitAction(sc.name);
        Ok(Feature(made.name, Join(TraitLines(FixLinks(header[0]), lines, sc.footerEntries.GetOr([])), "\n"), made.recharge))
  }

  /** The spell lines: innate for a block whose name starts with "Innate", levelled otherwise. */
  function SpellLines(lk: Lookups, sc: Spellcasting): Result<seq<string>> {
    if "Innate" <= sc.name then InnateSpellProc(lk, sc.uses) else NormalSpellProc(lk, sc.uses)
  }

  /** The header line, the spell lines, the footer lines. */
  function TraitLines(first: string, lines: seq<string>, footer: seq<string>): (r: seq<string>)
    ensures r != [] && r[0] == first
    ensures footer != [] ==> r[|r| - 1] == footer[|footer| - 1]
  {
    [first] + lines + footer
  }

  /**
   * The trait is built exactly when its spell lines are and it has a first header line; its text
   * then starts with that line, normalised, and ends with the last footer line, verbatim.
   */
  lemma SpellcastingTraitText(lk: Lookups, sc: Spellcasting)
    ensures SpellcastingTrait(lk, sc).Ok? <==>
      SpellLines(lk, sc).Ok? && sc.headerEntries.Some? && sc.headerEntries.value != []
    ensures SpellcastingTrait(lk, sc).Ok? ==> FixLinks(sc.headerEntries.value[0]) <= SpellcastingTrait(lk, sc).value.text
    ensures SpellcastingTrait(lk, sc).Ok? && sc.footerEntries.Some? && sc.footerEntries.value != [] ==>
      EndsWith(SpellcastingTrait(lk, sc).value.text, sc.footerEntries.value[|sc.footerEntries.value| - 1])
  {
    var r := SpellcastingTrait(lk, sc);
    if r.Ok? {
      var all := TraitLines(FixLinks(sc.headerEntries.value[0]), SpellLines(lk, sc).value, sc.footerEntries.GetOr([]));
      assert r.value.text == Join(all, "\n");
      JoinFirst(all, "\n");
      JoinLast(all, "\n");
    }
  }
}
