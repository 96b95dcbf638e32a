/**
 * `processSpell`: one 5etools spell record, and the supplementary data recorded for it by name,
 * become one Shaped spell record. The record is filled field by field; the supplementary data
 * adds the attack, the save, the damage and the healing.
 */
module Spell {
  import opened Wrappers
  import opened Text
  import opened Markup
  import opened Grammars
  import opened External
  import opened SpellEntries

  // ---------------------------------------------------------------------------------------------
  // Objects

  /** A value the supplementary data puts into the record. */
  datatype Value =
    | Str(s: string)
    | Num(n: int)
    | NaN                  // `parseInt` of text that does not start with a number
    | FloatText(s: string) // `parseFloat` of text with a decimal point, kept as that text
    | True

  /** A JSON object, as its properties in insertion order. */
  type Obj = seq<(string, Value)>

  /** `o[k] = v`: an existing property keeps its place, a new one goes last. */
  function Set(o: Obj, k: string, v: Value): (r: Obj)
    ensures Lookup(o, k).Some? ==> |r| == |o|
    ensures Lookup(o, k).None? ==> r == o + [(k, v)]
    decreases |o|
  {
    if o == [] then [(k, v)]
    else if o[0].0 == k then [(k, v)] + o[1..]
    else [o[0]] + Set(o[1..], k, v)
  }

  /** After `o[k] = v`, `k` holds `v` and every other property what it held before. */
  lemma {:induction false} SetLookup(o: Obj, k: string, v: Value, k': string)
    ensures Lookup(Set(o, k, v), k') == if k' == k then Some(v) else Lookup(o, k')
    decreases |o|
  {
    if o != [] && o[0].0 != k {
      SetLookup(o[1..], k, v, k');
    }
  }

  /** A run of assignments, in order. */
  function SetAll(o: Obj, ws: seq<(string, Value)>): Obj
    decreases |ws|
  {
    if ws == [] then o else SetAll(Set(o, ws[0].0, ws[0].1), ws[1..])
  }

  /** The value the last assignment to `k` in a run gives it. */
  function Written(ws: seq<(string, Value)>, k: string): Option<Value>
    decreases |ws|
  {
    if ws == [] then None
    else if Written(ws[1..], k).Some? then Written(ws[1..], k)
    else if ws[0].0 == k then Some(ws[0].1)
    else None
  }

  /** After a run of assignments, a property holds its last assigned value, or what it held before. */
  lemma {:induction false} SetAllLookup(o: Obj, ws: seq<(string, Value)>, k: string)
    ensures Lookup(SetAll(o, ws), k) == if Written(ws, k).Some? then Written(ws, k) else Lookup(o, k)
    decreases |ws|
  {
    if ws != [] {
      SetAllLookup(Set(o, ws[0].0, ws[0].1), ws[1..], k);
      SetLookup(o, ws[0].0, ws[0].1, k);
    }
  }

  lemma {:induction false} SetAllAppend(o: Obj, a: seq<(string, Value)>, b: seq<(string, Value)>)
    ensures SetAll(o, a + b) == SetAll(SetAll(o, a), b)
    decreases |a|
  {
    if a == [] {
      assert a + b == b;
    } else {
      assert (a + b)[0] == a[0] && (a + b)[1..] == a[1..] + b;
      SetAllAppend(Set(o, a[0].0, a[0].1), a[1..], b);
    }
  }

  lemma {:induction false} WrittenAppend(a: seq<(string, Value)>, b: seq<(string, Value)>, k: string)
    ensures Written(a + b, k) == if Written(b, k).Some? then Written(b, k) else Written(a, k)
    decreases |a|
  {
    if a == [] {
      assert a + b == b;
    } else {
      assert (a + b)[0] == a[0] && (a + b)[1..] == a[1..] + b;
      WrittenAppend(a[1..], b, k);
    }
  }

  lemma WrittenOne(k: string, v: Value, k': string)
    ensures Written([(k, v)], k') == if k' == k then Some(v) else None
  {
    assert [(k, v)][1..] == [];
  }

  // ---------------------------------------------------------------------------------------------
  // The supplementary data

  /** The supplementary data of one spell: its fields, by name, as text. */
  type Data = seq<(string, string)>

  /** A field whose value is truthy: present and not empty. */
  function Field(data: Data, key: string): (r: Option<string>)
    ensures r.Some? ==> r.value != [] && Lookup(data, key) == r
  {
    var v := Lookup(data, key);
    if v.Some? && v.value != "" then v else None
  }

  /** `parseInt(s, 10)` as a value. */
  function IntValue(s: string): Value {
    match ParseInt(s)
    case Some(n) => Num(n)
    case None => NaN
  }

  /** The fields one damage block is read from. */
  datatype PropNames = PropNames(damage: string, damageProgression: string, damageType: string,
                                 higherLevel: string, castingStat: string, condition: string)

  /** The properties one damage block is written to. */
  datatype OutputNames = OutputNames(outputDamage: string, outputDamageBonus: string, outputDamageType: string,
                                     outputHigherLevel: string, outputCastingStat: string)

  const PrimaryDamageProps := PropNames("Damage", "Damage Progression", "Damage Type",
                                        "Higher Spell Slot Dice", "Add Casting Modifier", "primaryDamageCondition")

  const PrimaryDamageOutputs := OutputNames("damage", "damageBonus", "damageType", "higherLevelDice", "castingStat")

  const SecondaryDamageProps := PropNames("Secondary Damage", "Secondary Damage Progression", "Secondary Damage Type",
                                          "Secondary Higher Spell Slot Dice", "Secondary Add Casting Modifier",
                                          "secondaryDamageCondition")

  const SecondaryDamageOutputs := OutputNames("secondaryDamage", "secondaryDamageBonus", "secondaryDamageType",
                                              "higherLevelSecondaryDice", "secondaryCastingStat")

  /** What a "Cantrip Dice" progression puts before the dice: their count grows with the character's level. */
  const CantripScaling: string := "[[ceil((@{level} + 2) / 6)]]"

  /** The damage formula's assignments: scaled, verbatim, or split into dice and bonus. */
  function FormulaWrites(damage: string, progression: Option<string>, outs: OutputNames): seq<(string, Value)> {
    if progression.Some? then
      if progression.value == "Cantrip Dice" then [(outs.outputDamage, Str(CantripScaling + ReplaceFirst(MatchDiceCount, damage)))]
      else [(outs.outputDamage, Str(damage))]
    else match SplitDiceBonus(damage)
      case Some(split) =>
        (if split.dice.Some? then [(outs.outputDamage, Str(split.dice.value))] else [])
        + (if split.bonus.Some? then [(outs.outputDamageBonus, Str(split.bonus.value))] else [])
      case None => [(outs.outputDamage, Str(damage))]
  }

  /** `parseInt(s)` without a radix, as a value. */
  function IntValueAnyRadix(s: string): Value {
    match ParseIntAnyRadix(s)
    case Some(n) => Num(n)
    case None => NaN
  }

  /** `parseFloat` when the text has a decimal point, `parseInt` without a radix otherwise. */
  function HigherLevelValue(s: string): Value {
    if '.' in s then FloatText(s) else IntValueAnyRadix(s)
  }

  /** One assignment, made only when `c` holds. */
  function WriteIf(c: bool, k: string, v: Value): seq<(string, Value)> {
    if c then [(k, v)] else []
  }

  lemma SetAllWriteIf(o: Obj, c: bool, k: string, v: Value)
    ensures SetAll(o, WriteIf(c, k, v)) == if c then Set(o, k, v) else o
  {
    assert [(k, v)][1..] == [];
  }

  /** The assignments that follow the formula's: the damage type, the scaling, the casting modifier. */
  function DetailWrites(lk: Lookups, data: Data, props: PropNames, outs: OutputNames): seq<(string, Value)> {
    WriteIf(Field(data, props.damageType).Some?, outs.outputDamageType, Str(lk.lowerCase(Field(data, props.damageType).GetOr(""))))
    + WriteIf(Field(data, props.higherLevel).Some?, outs.outputHigherLevel, HigherLevelValue(Field(data, props.higherLevel).GetOr("")))
    + WriteIf(Lookup(data, props.castingStat) == Some("Yes"), outs.outputCastingStat, True)
  }

  /** The assignments `processDamageInfo` makes, in order; none when there is no damage. */
  function DamageWrites(lk: Lookups, data: Data, props: PropNames, outs: OutputNames): seq<(string, Value)> {
    match Field(data, props.damage)
    case None => []
    case Some(damage) => FormulaWrites(damage, Field(data, props.damageProgression), outs) + DetailWrites(lk, data, props, outs)
  }

  /**
   * Assignments into an object that may be undefined: the first assignment into an undefined
   * object throws.
   */
  function ApplyWrites(target: Option<Obj>, ws: seq<(string, Value)>): (r: Result<Option<Obj>>)
    ensures r.Err? <==> target.None? && ws != []
  {
    if ws == [] then Ok(target)
    else if target.None? then Err(UndefinedTarget)
    else Ok(Some(SetAll(target.value, ws)))
  }

  const UndefinedTarget := "TypeError: Cannot set properties of undefined"

  lemma SetAllSnoc(o: Obj, done: seq<(string, Value)>, k: string, v: Value)
    ensures SetAll(o, done + [(k, v)]) == Set(SetAll(o, done), k, v)
  {
    SetAllAppend(o, done, [(k, v)]);
    assert [(k, v)][1..] == [];
  }

  /** Assigning into an empty object leaves it empty exactly when nothing was assigned. */
  lemma SetAllEmpty(ws: seq<(string, Value)>)
    ensures (SetAll([], ws) == []) <==> ws == []
  {
    if ws != [] {
      var w := ws[|ws| - 1];
      assert ws == ws[..|ws| - 1] + [w];
      SetAllSnoc([], ws[..|ws| - 1], w.0, w.1);
      SetLookup(SetAll([], ws[..|ws| - 1]), w.0, w.1, w.0);
    }
  }

  /** The damage formula assigned into the output object. */
  method AssignFormula(damage: string, progression: Option<string>, outs: OutputNames, target: Obj) returns (o: Obj)
    ensures o == SetAll(target, FormulaWrites(damage, progression, outs))
  {
    if progression.Some? {
      var text := if progression.value == "Cantrip Dice" then CantripScaling + ReplaceFirst(MatchDiceCount, damage) else damage;
      SetAllWriteIf(target, true, outs.outputDamage, Str(text));
      o := Set(target, outs.outputDamage, Str(text));
    } else {
      var split := SplitDiceBonus(damage);
      if split.Some? {
        o := target;
        if split.value.dice.Some? {
          o := Set(o, outs.outputDamage, Str(split.value.dice.value));
        }
        if split.value.bonus.Some? {
          o := Set(o, outs.outputDamageBonus, Str(split.value.bonus.value));
        }
        var dice := WriteIf(split.value.dice.Some?, outs.outputDamage, Str(split.value.dice.GetOr("")));
        var bonus := WriteIf(split.value.bonus.Some?, outs.outputDamageBonus, Str(split.value.bonus.GetOr("")));
        SetAllWriteIf(target, split.value.dice.Some?, outs.outputDamage, Str(split.value.dice.GetOr("")));
        SetAllWriteIf(SetAll(target, dice), split.value.bonus.Some?, outs.outputDamageBonus, Str(split.value.bonus.GetOr("")));
        SetAllAppend(target, dice, bonus);
      } else {
        SetAllWriteIf(target, true, outs.outputDamage, Str(damage));
        o := Set(target, outs.outputDamage, Str(damage));
      }
    }
  }

  /**
   * `processDamageInfo(data, outputObject, propNames, outputNames)`: the formula, its type, its
   * scaling and the casting modifier, assigned in that order into the output object.
   */
  method ProcessDamageInfo(lk: Lookups, data: Data, target: Obj, props: PropNames, outs: OutputNames) returns (o: Obj)
    ensures o == SetAll(target, DamageWrites(lk, data, props, outs))
  {
    o := target;
    var damage := Field(data, props.damage);
    if damage.None? {
      return;
    }
    o := AssignFormula(damage.value, Field(data, props.damageProgression), outs, o);
    o := AssignDetails(lk, data, props, outs, o);
    SetAllAppend(target, FormulaWrites(damage.value, Field(data, props.damageProgression), outs), DetailWrites(lk, data, props, outs));
  }

  /** The damage type, the scaling and the casting modifier, assigned after the formula. */
  method AssignDetails(lk: Lookups, data: Data, props: PropNames, outs: OutputNames, target: Obj) returns (o: Obj)
    ensures o == SetAll(target, DetailWrites(lk, data, props, outs))
  {
    o := target;
    var damageType := Field(data, props.damageType);
    if damageType.Some? {
      o := Set(o, outs.outputDamageType, Str(lk.lowerCase(damageType.value)));
    }
    ghost var o2 := o;
    var higher := Field(data, props.higherLevel);
    if higher.Some? {
      o := Set(o, outs.outputHigherLevel, HigherLevelValue(higher.value));
    }
    ghost var o3 := o;
    if Lookup(data, props.castingStat) == Some("Yes") {
      o := Set(o, outs.outputCastingStat, True);
    }
    ghost var w1 := WriteIf(damageType.Some?, outs.outputDamageType, Str(lk.lowerCase(damageType.GetOr(""))));
    ghost var w2 := WriteIf(higher.Some?, outs.outputHigherLevel, HigherLevelValue(higher.GetOr("")));
    ghost var w3 := WriteIf(Lookup(data, props.castingStat) == Some("Yes"), outs.outputCastingStat, True);
    SetAllWriteIf(target, damageType.Some?, outs.outputDamageType, Str(lk.lowerCase(damageType.GetOr(""))));
    SetAllWriteIf(o2, higher.Some?, outs.outputHigherLevel, HigherLevelValue(higher.GetOr("")));
    SetAllWriteIf(o3, Lookup(data, props.castingStat) == Some("Yes"), outs.outputCastingStat, True);
    SetAllAppend(target, w1, w2);
    SetAllAppend(target, w1 + w2, w3);
  }

  // ---------------------------------------------------------------------------------------------
  // The spell record

  /** A class whose spell list names the spell. */
  datatype ClassRef = ClassRef(name: string, source: string)

  /** A subclass whose spell list names the spell, with the class it belongs to. */
  datatype SubclassRef = SubclassRef(className: string, classSource: string,
                                     subclassName: string, subclassSource: string, subSubclass: Option<string>)

  /** The fields of a spell record that the conversion reads. */
  datatype SpellIn = SpellIn(
    name: string,
    level: int,
    school: Raw,
    ritual: bool,         // `meta.ritual` is truthy
    time: Raw,
    range: Raw,
    components: Raw,
    duration: Raw,
    entries: seq<SpellEntry>,
    entriesHigherLevel: Option<seq<seq<string>>>,
    fromClassList: seq<ClassRef>,
    fromSubclass: Option<seq<SubclassRef>>
  )

  /** The Shaped spell record; a property left undefined is `None`. */
  datatype SpellOut = SpellOut(
    name: string,
    level: int,
    school: string,
    ritual: bool,
    castingTime: string,
    range: string,
    components: string,
    duration: string,
    description: string,
    higherLevel: Option<string>,
    attack: Option<Obj>,
    save: Option<Obj>,
    damage: Option<Obj>,
    heal: Option<Obj>
  )

  /**
   * One damage block, when there is damage that is not an "Effect": into the save, the attack or
   * the damage object as its condition says, and a missing or unknown condition throws.
   */
  function DamageInto(lk: Lookups, data: Data, props: PropNames, outs: OutputNames, s: SpellOut): (r: Result<SpellOut>)
    ensures r.Ok? ==> r.value.(attack := s.attack, save := s.save, damage := s.damage) == s
    ensures Field(data, props.damage).None? || Lookup(data, props.damageType) == Some("Effect") ==> r == Ok(s)
  {
    if Field(data, props.damage).Some? && Lookup(data, props.damageType) != Some("Effect") then
      var ws := DamageWrites(lk, data, props, outs);
      var condition := Lookup(data, props.condition);
      if condition == Some("save") then
        var o :- ApplyWrites(s.save, ws);
        Ok(s.(save := o))
      else if condition == Some("attack") then
        var o :- ApplyWrites(s.attack, ws);
        Ok(s.(attack := o))
      else if condition == Some("auto") then
        Ok(s.(damage := Some(SetAll(s.damage.GetOr([]), ws))))
      else Err("Missing " + props.condition + " for spell " + s.name)
    else Ok(s)
  }

  /** `/\d+(?:d\d+)/` matches somewhere: the text holds dice. */
  predicate HasDice(s: string) {
    exists i | 0 <= i < |s| :: DiceEnd(s[i..]) > 0
  }

  /** The assignments that fill the healing object, in order. */
  function HealWrites(data: Data, healing: string): seq<(string, Value)> {
    HealFormulaWrites(healing) + HealDetailWrites(data, healing)
  }

  /** The assignments that follow the healing formula's: the casting modifier and the scaling. */
  function HealDetailWrites(data: Data, healing: string): seq<(string, Value)> {
    WriteIf(Lookup(data, "Add Casting Modifier") == Some("Yes"), "castingStat", True)
    + WriteIf(Field(data, "Higher Spell Slot Dice").Some? && HasDice(healing), "higherLevelDice", IntValue(Field(data, "Higher Spell Slot Dice").GetOr("")))
    + WriteIf(Field(data, "Higher Level Healing").Some?, "higherLevelAmount", IntValue(Field(data, "Higher Level Healing").GetOr("")))
  }

  /** The healing formula: dice and a bonus read as a number, or the text as it is. */
  function HealFormulaWrites(healing: string): seq<(string, Value)> {
    match SplitDiceBonus(healing)
    case Some(split) =>
      WriteIf(split.dice.Some?, "heal", Str(split.dice.GetOr("")))
      + WriteIf(split.bonus.Some?, "bonus", IntValue(split.bonus.GetOr("")))
    case None => [("heal", Str(healing))]
  }

  /** The save object: the ability, and how a successful save fares when that is given. */
  function SaveObject(lk: Lookups, data: Data): Obj {
    [("ability", Str(Field(data, "Save").GetOr("")))]
    + WriteIf(Field(data, "Save Success").Some?, "saveSuccess", Str(lk.lowerCase(Field(data, "Save Success").GetOr(""))))
  }

  /** The output names of the secondary damage: its own, unless both blocks share a condition. */
  function SecondOutputs(data: Data): OutputNames {
    if Lookup(data, "primaryDamageCondition") == Lookup(data, "secondaryDamageCondition")
    then SecondaryDamageOutputs else PrimaryDamageOutputs
  }

  /** The attack, when the data names one, and the save, when the data names its ability. */
  function AttackAndSave(lk: Lookups, s: SpellOut, d: Data): (r: SpellOut)
    ensures r.(attack := s.attack, save := s.save) == s
  {
    var s1 := if Field(d, "Spell Attack").Some? then s.(attack := Some([("type", Str(lk.lowerCase(Field(d, "Spell Attack").value)))])) else s;
    if Field(d, "Save").Some? then s1.(save := Some(SaveObject(lk, d))) else s1
  }

  /** The healing, when the data has a healing formula. */
  function WithHealing(s: SpellOut, d: Data): (r: SpellOut)
    ensures r.(heal := s.heal) == s
  {
    if Field(d, "Healing").Some? then s.(heal := Some(SetAll([], HealWrites(d, Field(d, "Healing").value)))) else s
  }

  /**
   * `addExtraSpellData(newSpell, data)`: the attack, the save, the two damage blocks and the
   * healing. A spell without supplementary data throws at the first field read.
   */
  function ExtraSpellData(lk: Lookups, s: SpellOut, data: Option<Data>): (r: Result<SpellOut>)
    ensures data.None? ==> r.Err?
    ensures r.Ok? ==> r.value.(attack := s.attack, save := s.save, damage := s.damage, heal := s.heal) == s
  {
    if data.None? then Err("TypeError: Cannot read properties of undefined (reading 'Spell Attack')")
    else
      var d := data.value;
      var s3 :- DamageInto(lk, d, PrimaryDamageProps, PrimaryDamageOutputs, AttackAndSave(lk, s, d));
      var s4 :- DamageInto(lk, d, SecondaryDamageProps, SecondOutputs(d), s3);
      Ok(WithHealing(s4, d))
  }

  /** `processSpell`: the record's own fields, its description, its higher-level text, then the supplementary data. */
  function ConvertSpell(lk: Lookups, spell: SpellIn, data: Option<Data>): (r: Result<SpellOut>)
    ensures spell.entriesHigherLevel == Some([]) || data.None? ==> r.Err?
    ensures r.Ok? ==> r.value.name == spell.name && r.value.level == spell.level && r.value.ritual == spell.ritual
    ensures r.Ok? ==> r.value.description == ProcessSpellEntries(spell.entries).description
    ensures r.Ok? ==> Ok(r.value.higherLevel) == HigherLevel(ProcessSpellEntries(spell.entries).higherLevel, spell.entriesHigherLevel)
  {
    var described := ProcessSpellEntries(spell.entries);
    var higher :- HigherLevel(described.higherLevel, spell.entriesHigherLevel);
    var base := SpellOut(spell.name, spell.level, lk.schoolText(spell.school), spell.ritual,
                         lk.timeText(spell.time), lk.rangeText(spell.range), lk.componentsText(spell.components),
                         lk.durationText(spell.duration), described.description, higher, None, None, None, None);
    ExtraSpellData(lk, base, data)
  }

  // ---------------------------------------------------------------------------------------------
  // Properties

  lemma WrittenWriteIf(c: bool, k: string, v: Value, k': string)
    ensures Written(WriteIf(c, k, v), k') == if c && k == k' then Some(v) else None
  {
    if c {
      WrittenOne(k, v, k');
    }
  }

  /** The assignments after the formula's touch only the type, the scaling and the casting modifier. */
  lemma DetailWritesOnly(lk: Lookups, data: Data, props: PropNames, outs: OutputNames, k: string)
    requires k != outs.outputDamageType && k != outs.outputHigherLevel && k != outs.outputCastingStat
    ensures Written(DetailWrites(lk, data, props, outs), k).None?
  {
    var w1 := WriteIf(Field(data, props.damageType).Some?, outs.outputDamageType, Str(lk.lowerCase(Field(data, props.damageType).GetOr(""))));
    var w2 := WriteIf(Field(data, props.higherLevel).Some?, outs.outputHigherLevel, HigherLevelValue(Field(data, props.higherLevel).GetOr("")));
    var w3 := WriteIf(Lookup(data, props.castingStat) == Some("Yes"), outs.outputCastingStat, True);
    WrittenWriteIf(Field(data, props.damageType).Some?, outs.outputDamageType, Str(lk.lowerCase(Field(data, props.damageType).GetOr(""))), k);
    WrittenWriteIf(Field(data, props.higherLevel).Some?, outs.outputHigherLevel, HigherLevelValue(Field(data, props.higherLevel).GetOr("")), k);
    WrittenWriteIf(Lookup(data, props.castingStat) == Some("Yes"), outs.outputCastingStat, True, k);
    WrittenAppend(w1, w2, k);
    WrittenAppend(w1 + w2, w3, k);
  }

  /** The formula's assignments touch only the damage and its bonus. */
  lemma FormulaWritesOnly(damage: string, progression: Option<string>, outs: OutputNames, k: string)
    requires k != outs.outputDamage && k != outs.outputDamageBonus
    ensures Written(FormulaWrites(damage, progression, outs), k).None?
  {
    if progression.None? && SplitDiceBonus(damage).Some? {
      var split := SplitDiceBonus(damage).value;
      WrittenWriteIf(split.dice.Some?, outs.outputDamage, Str(split.dice.GetOr("")), k);
      WrittenWriteIf(split.bonus.Some?, outs.outputDamageBonus, Str(split.bonus.GetOr("")), k);
      WrittenAppend(WriteIf(split.dice.Some?, outs.outputDamage, Str(split.dice.GetOr(""))),
                    WriteIf(split.bonus.Some?, outs.outputDamageBonus, Str(split.bonus.GetOr(""))), k);
    } else {
      var text := if progression.Some? && progression.value == "Cantrip Dice" then CantripScaling + ReplaceFirst(MatchDiceCount, damage) else damage;
      WrittenOne(outs.outputDamage, Str(text), k);
    }
  }

  /** The two sets of output names: each block writes five distinct properties. */
  predicate KnownOutputs(outs: OutputNames) {
    outs == PrimaryDamageOutputs || outs == SecondaryDamageOutputs
  }

  /** What the formula assigns to the damage and its bonus is what the block leaves there. */
  lemma FormulaWins(lk: Lookups, data: Data, props: PropNames, outs: OutputNames, damage: string, k: string)
    requires KnownOutputs(outs) && Field(data, props.damage) == Some(damage)
    requires k == outs.outputDamage || k == outs.outputDamageBonus
    ensures Written(DamageWrites(lk, data, props, outs), k) == Written(FormulaWrites(damage, Field(data, props.damageProgression), outs), k)
  {
    DetailWritesOnly(lk, data, props, outs, k);
    WrittenAppend(FormulaWrites(damage, Field(data, props.damageProgression), outs), DetailWrites(lk, data, props, outs), k);
  }

  /** A formula of dice and a bonus is recorded as the dice and, apart, the bonus, kept as text. */
  lemma DamageSplit(lk: Lookups, data: Data, props: PropNames, outs: OutputNames, dice: string, sep: string, bonus: string)
    requires KnownOutputs(outs)
    requires Field(data, props.damage) == Some(dice + sep + bonus) && Field(data, props.damageProgression).None?
    requires IsDice(dice) && IsPlusSep(sep) && sep != [] && bonus != [] && AllDigits(bonus)
    ensures Written(DamageWrites(lk, data, props, outs), outs.outputDamage) == Some(Str(dice))
    ensures Written(DamageWrites(lk, data, props, outs), outs.outputDamageBonus) == Some(Str(bonus))
  {
    var damage := dice + sep + bonus;
    SplitDiceBonusComplete(dice, sep, bonus);
    var split := SplitDiceBonus(damage).value;
    var w1 := WriteIf(true, outs.outputDamage, Str(dice));
    var w2 := WriteIf(true, outs.outputDamageBonus, Str(bonus));
    assert FormulaWrites(damage, None, outs) == w1 + w2;
    WrittenWriteIf(true, outs.outputDamage, Str(dice), outs.outputDamage);
    WrittenWriteIf(true, outs.outputDamageBonus, Str(bonus), outs.outputDamage);
    WrittenWriteIf(true, outs.outputDamageBonus, Str(bonus), outs.outputDamageBonus);
    WrittenAppend(w1, w2, outs.outputDamage);
    WrittenAppend(w1, w2, outs.outputDamageBonus);
    FormulaWins(lk, data, props, outs, damage, outs.outputDamage);
    FormulaWins(lk, data, props, outs, damage, outs.outputDamageBonus);
  }

  /** A "Cantrip Dice" progression replaces the dice count by the level-scaling expression. */
  lemma CantripDamageScales(lk: Lookups, data: Data, props: PropNames, outs: OutputNames, count: string, sides: string, rest: string)
    requires KnownOutputs(outs)
    requires count != [] && AllDigits(count) && sides != [] && AllDigits(sides) && (rest == [] || !IsDigit(rest[0]))
    requires Field(data, props.damage) == Some(count + "d" + sides + rest)
    requires Field(data, props.damageProgression) == Some("Cantrip Dice")
    ensures Written(DamageWrites(lk, data, props, outs), outs.outputDamage) == Some(Str(CantripScaling + ("d" + sides + rest)))
  {
    var damage := count + "d" + sides + rest;
    DiceCountToken(count, sides, rest);
    WrittenOne(outs.outputDamage, Str(CantripScaling + ReplaceFirst(MatchDiceCount, damage)), outs.outputDamage);
    FormulaWins(lk, data, props, outs, damage, outs.outputDamage);
  }

  /** The casting modifier is added exactly when the data says "Yes". */
  lemma CastingModifier(lk: Lookups, data: Data, props: PropNames, outs: OutputNames)
    requires KnownOutputs(outs) && Field(data, props.damage).Some?
    ensures Written(DamageWrites(lk, data, props, outs), outs.outputCastingStat)
      == if Lookup(data, props.castingStat) == Some("Yes") then Some(True) else None
  {
    var k := outs.outputCastingStat;
    var f := FormulaWrites(Field(data, props.damage).value, Field(data, props.damageProgression), outs);
    FormulaWritesOnly(Field(data, props.damage).value, Field(data, props.damageProgression), outs, k);
    var w1 := WriteIf(Field(data, props.damageType).Some?, outs.outputDamageType, Str(lk.lowerCase(Field(data, props.damageType).GetOr(""))));
    var w2 := WriteIf(Field(data, props.higherLevel).Some?, outs.outputHigherLevel, HigherLevelValue(Field(data, props.higherLevel).GetOr("")));
    var w3 := WriteIf(Lookup(data, props.castingStat) == Some("Yes"), outs.outputCastingStat, True);
    WrittenWriteIf(Field(data, props.damageType).Some?, outs.outputDamageType, Str(lk.lowerCase(Field(data, props.damageType).GetOr(""))), k);
    WrittenWriteIf(Field(data, props.higherLevel).Some?, outs.outputHigherLevel, HigherLevelValue(Field(data, props.higherLevel).GetOr("")), k);
    WrittenWriteIf(Lookup(data, props.castingStat) == Some("Yes"), outs.outputCastingStat, True, k);
    WrittenAppend(w1, w2, k);
    WrittenAppend(w1 + w2, w3, k);
    WrittenAppend(f, w1 + w2 + w3, k);
  }

  /**
   * When both blocks share a condition, the secondary block writes under its own names, so
   * whatever the primary block recorded survives it.
   */
  lemma SecondaryKeepsPrimary(lk: Lookups, data: Data, o: Obj, k: string)
    requires k == "damage" || k == "damageBonus" || k == "damageType" || k == "higherLevelDice" || k == "castingStat"
    ensures Lookup(SetAll(o, DamageWrites(lk, data, SecondaryDamageProps, SecondaryDamageOutputs)), k) == Lookup(o, k)
  {
    var outs := SecondaryDamageOutputs;
    if Field(data, SecondaryDamageProps.damage).Some? {
      var f := FormulaWrites(Field(data, SecondaryDamageProps.damage).value, Field(data, SecondaryDamageProps.damageProgression), outs);
      FormulaWritesOnly(Field(data, SecondaryDamageProps.damage).value, Field(data, SecondaryDamageProps.damageProgression), outs, k);
      DetailWritesOnly(lk, data, SecondaryDamageProps, outs, k);
      WrittenAppend(f, DetailWrites(lk, data, SecondaryDamageProps, outs), k);
    }
    SetAllLookup(o, DamageWrites(lk, data, SecondaryDamageProps, outs), k);
  }

  /** A damage block with a missing or unknown condition fails the spell, naming the condition field. */
  lemma MissingConditionFails(lk: Lookups, s: SpellOut, d: Data)
    requires Field(d, "Damage").Some? && Lookup(d, "Damage Type") != Some("Effect")
    requires Lookup(d, "primaryDamageCondition") != Some("save") && Lookup(d, "primaryDamageCondition") != Some("attack")
    requires Lookup(d, "primaryDamageCondition") != Some("auto")
    ensures ExtraSpellData(lk, s, Some(d)) == Err("Missing " + PrimaryDamageProps.condition + " for spell " + s.name)
  {
    var s2 := AttackAndSave(lk, s, d);
    assert s2.name == s.name;
    PrimaryFails(lk, d, s2);
  }

  lemma PrimaryFails(lk: Lookups, d: Data, s: SpellOut)
    requires Field(d, "Damage").Some? && Lookup(d, "Damage Type") != Some("Effect")
    requires Lookup(d, "primaryDamageCondition") != Some("save") && Lookup(d, "primaryDamageCondition") != Some("attack")
    requires Lookup(d, "primaryDamageCondition") != Some("auto")
    ensures DamageInto(lk, d, PrimaryDamageProps, PrimaryDamageOutputs, s) == Err("Missing " + PrimaryDamageProps.condition + " for spell " + s.name)
  {
    var props := PrimaryDamageProps;
    assert props.damage == "Damage" && props.damageType == "Damage Type" && props.condition == "primaryDamageCondition";
    UnknownConditionFails(lk, d, props, PrimaryDamageOutputs, s);
  }

  lemma UnknownConditionFails(lk: Lookups, d: Data, props: PropNames, outs: OutputNames, s: SpellOut)
    requires Field(d, props.damage).Some? && Lookup(d, props.damageType) != Some("Effect")
    requires var c := Lookup(d, props.condition); c != Some("save") && c != Some("attack") && c != Some("auto")
    ensures DamageInto(lk, d, props, outs, s) == Err("Missing " + props.condition + " for spell " + s.name)
  {
  }

  /** Damage saved against needs a save: when the data names no save ability, the first assignment throws. */
  lemma SaveDamageNeedsSave(lk: Lookups, s: SpellOut, d: Data)
    requires Field(d, "Damage").Some? && Lookup(d, "Damage Type") != Some("Effect")
    requires Lookup(d, "primaryDamageCondition") == Some("save")
    requires s.save.None? && Field(d, "Save").None?
    requires DamageWrites(lk, d, PrimaryDamageProps, PrimaryDamageOutputs) != []
    ensures ExtraSpellData(lk, s, Some(d)) == Err(UndefinedTarget)
  {
    var s2 := AttackAndSave(lk, s, d);
    assert s2.save.None?;
  }

  /** A healing formula of dice and a bonus is recorded as the dice and the bonus read as a number. */
  lemma HealSplit(data: Data, dice: string, sep: string, bonus: string)
    requires IsDice(dice) && IsPlusSep(sep) && sep != [] && bonus != [] && AllDigits(bonus)
    ensures var heal := SetAll([], HealWrites(data, dice + sep + bonus));
      && Lookup(heal, "heal") == Some(Str(dice))
      && Lookup(heal, "bonus") == Some(Num(DigitsValue(bonus)))
  {
    var h := dice + sep + bonus;
    HealFormulaSplit(dice, sep, bonus);
    HealRestKeeps(data, h, "heal");
    HealRestKeeps(data, h, "bonus");
    TwoWrites("heal", Str(dice), "bonus", Num(DigitsValue(bonus)));
  }

  /** Two assignments to different properties of an empty object. */
  lemma TwoWrites(k1: string, v1: Value, k2: string, v2: Value)
    requires k1 != k2
    ensures Lookup(SetAll([], [(k1, v1)] + [(k2, v2)]), k1) == Some(v1)
    ensures Lookup(SetAll([], [(k1, v1)] + [(k2, v2)]), k2) == Some(v2)
  {
    SetAllLookup([], [(k1, v1)] + [(k2, v2)], k1);
    SetAllLookup([], [(k1, v1)] + [(k2, v2)], k2);
    WrittenOne(k1, v1, k1);
    WrittenOne(k2, v2, k1);
    WrittenOne(k2, v2, k2);
    WrittenAppend([(k1, v1)], [(k2, v2)], k1);
    WrittenAppend([(k1, v1)], [(k2, v2)], k2);
  }

  lemma HealFormulaSplit(dice: string, sep: string, bonus: string)
    requires IsDice(dice) && IsPlusSep(sep) && sep != [] && bonus != [] && AllDigits(bonus)
    ensures HealFormulaWrites(dice + sep + bonus) == [("heal", Str(dice))] + [("bonus", Num(DigitsValue(bonus)))]
  {
    SplitDiceBonusComplete(dice, sep, bonus);
    ParseIntOfDigitStart(bonus);
    DigitRunOfPrefix(bonus, "");
    assert bonus + "" == bonus && bonus[..|bonus|] == bonus;
    assert IntValue(bonus) == Num(DigitsValue(bonus));
  }

  /** Healing text that is not dice and a bonus is recorded as it is. */
  lemma HealVerbatim(data: Data, healing: string)
    requires SplitDiceBonus(healing).None?
    ensures Lookup(SetAll([], HealWrites(data, healing)), "heal") == Some(Str(healing))
  {
    HealRestKeeps(data, healing, "heal");
    WrittenOne("heal", Str(healing), "heal");
  }

  /** The assignments after the formula's leave "heal" and "bonus" as the formula set them. */
  lemma HealRestKeeps(data: Data, healing: string, k: string)
    requires k == "heal" || k == "bonus"
    ensures Lookup(SetAll([], HealWrites(data, healing)), k) == Lookup(SetAll([], HealFormulaWrites(healing)), k)
  {
    var f := HealFormulaWrites(healing);
    HealDetailsSkip(data, healing, k);
    WrittenAppend(f, HealDetailWrites(data, healing), k);
    SetAllLookup([], HealWrites(data, healing), k);
    SetAllLookup([], f, k);
  }

  /** The assignments after the formula's write neither "heal" nor "bonus". */
  lemma HealDetailsSkip(data: Data, healing: string, k: string)
    requires k == "heal" || k == "bonus"
    ensures Written(HealDetailWrites(data, healing), k).None?
  {
    var w1 := WriteIf(Lookup(data, "Add Casting Modifier") == Some("Yes"), "castingStat", True);
    var w2 := WriteIf(Field(data, "Higher Spell Slot Dice").Some? && HasDice(healing), "higherLevelDice", IntValue(Field(data, "Higher Spell Slot Dice").GetOr("")));
    var w3 := WriteIf(Field(data, "Higher Level Healing").Some?, "higherLevelAmount", IntValue(Field(data, "Higher Level Healing").GetOr("")));
    WrittenWriteIf(Lookup(data, "Add Casting Modifier") == Some("Yes"), "castingStat", True, k);
    WrittenWriteIf(Field(data, "Higher Spell Slot Dice").Some? && HasDice(healing), "higherLevelDice", IntValue(Field(data, "Higher Spell Slot Dice").GetOr("")), k);
    WrittenWriteIf(Field(data, "Higher Level Healing").Some?, "higherLevelAmount", IntValue(Field(data, "Higher Level Healing").GetOr("")), k);
    WrittenAppend(w1, w2, k);
    WrittenAppend(w1 + w2, w3, k);
  }

  // ---------------------------------------------------------------------------------------------
  // Filling the record

  /** Assigning into an undefined object throws exactly when the stand-in empty object would gain a property. */
  lemma ApplyWritesViaEmpty(target: Option<Obj>, ws: seq<(string, Value)>)
    ensures target.None? ==> ApplyWrites(target, ws) == if SetAll([], ws) != [] then Err(UndefinedTarget) else Ok(None)
    ensures target.Some? ==> ApplyWrites(target, ws) == Ok(Some(SetAll(target.value, ws)))
  {
    SetAllEmpty(ws);
  }

  /**
   * One damage block routed by its condition. `processDamageInfo` runs on the object, or on an
   * empty stand-in when the object is undefined; the first assignment into an undefined object
   * throws, which is the case exactly when the stand-in gained a property.
   */
  method AddDamage(lk: Lookups, data: Data, props: PropNames, outs: OutputNames, s: SpellOut) returns (r: Result<SpellOut>)
    ensures r == DamageInto(lk, data, props, outs, s)
  {
    if Field(data, props.damage).None? || Lookup(data, props.damageType) == Some("Effect") {
      return Ok(s);
    }
    ghost var ws := DamageWrites(lk, data, props, outs);
    var condition := Lookup(data, props.condition);
    if condition == Some("save") {
      var o := ProcessDamageInfo(lk, data, s.save.GetOr([]), props, outs);
      ApplyWritesViaEmpty(s.save, ws);
      if s.save.None? && o != [] {
        return Err(UndefinedTarget);
      }
      r := Ok(s.(save := if s.save.None? then None else Some(o)));
    } else if condition == Some("attack") {
      var o := ProcessDamageInfo(lk, data, s.attack.GetOr([]), props, outs);
      ApplyWritesViaEmpty(s.attack, ws);
      if s.attack.None? && o != [] {
        return Err(UndefinedTarget);
      }
      r := Ok(s.(attack := if s.attack.None? then None else Some(o)));
    } else if condition == Some("auto") {
      var o := ProcessDamageInfo(lk, data, s.damage.GetOr([]), props, outs);
      r := Ok(s.(damage := Some(o)));
    } else {
      r := Err("Missing " + props.condition + " for spell " + s.name);
    }
  }

  /** The healing object, filled one property at a time. */
  method ProcessHealing(data: Data, healing: string) returns (heal: Obj)
    ensures heal == SetAll([], HealWrites(data, healing))
  {
    heal := [];
    var split := SplitDiceBonus(healing);
    if split.Some? {
      if split.value.dice.Some? {
        heal := Set(heal, "heal", Str(split.value.dice.value));
      }
      if split.value.bonus.Some? {
        heal := Set(heal, "bonus", IntValue(split.value.bonus.value));
      }
      ghost var dice := WriteIf(split.value.dice.Some?, "heal", Str(split.value.dice.GetOr("")));
      SetAllWriteIf([], split.value.dice.Some?, "heal", Str(split.value.dice.GetOr("")));
      SetAllWriteIf(SetAll([], dice), split.value.bonus.Some?, "bonus", IntValue(split.value.bonus.GetOr("")));
      SetAllAppend([], dice, WriteIf(split.value.bonus.Some?, "bonus", IntValue(split.value.bonus.GetOr(""))));
    } else {
      SetAllWriteIf([], true, "heal", Str(healing));
      heal := Set(heal, "heal", Str(healing));
    }
    heal := AssignHealDetails(data, healing, heal);
    SetAllAppend([], HealFormulaWrites(healing), HealDetailWrites(data, healing));
  }

  /** The casting modifier and the scaling, assigned into the healing object after the formula. */
  method AssignHealDetails(data: Data, healing: string, target: Obj) returns (heal: Obj)
    ensures heal == SetAll(target, HealDetailWrites(data, healing))
  {
    heal := target;
    if Lookup(data, "Add Casting Modifier") == Some("Yes") {
      heal := Set(heal, "castingStat", True);
    }
    ghost var o2 := heal;
    var dice := Field(data, "Higher Spell Slot Dice");
    if dice.Some? && HasDice(healing) {
      heal := Set(heal, "higherLevelDice", IntValue(dice.value));
    }
    ghost var o3 := heal;
    var amount := Field(data, "Higher Level Healing");
    if amount.Some? {
      heal := Set(heal, "higherLevelAmount", IntValue(amount.value));
    }
    ghost var w1 := WriteIf(Lookup(data, "Add Casting Modifier") == Some("Yes"), "castingStat", True);
    ghost var w2 := WriteIf(dice.Some? && HasDice(healing), "higherLevelDice", IntValue(dice.GetOr("")));
    ghost var w3 := WriteIf(amount.Some?, "higherLevelAmount", IntValue(amount.GetOr("")));
    SetAllWriteIf(target, Lookup(data, "Add Casting Modifier") == Some("Yes"), "castingStat", True);
    SetAllWriteIf(o2, dice.Some? && HasDice(healing), "higherLevelDice", IntValue(dice.GetOr("")));
    SetAllWriteIf(o3, amount.Some?, "higherLevelAmount", IntValue(amount.GetOr("")));
    SetAllAppend(target, w1, w2);
    SetAllAppend(target, w1 + w2, w3);
  }

  /** `addExtraSpellData(newSpell, data)`, setting the properties of the record in turn. */
  method AddExtraSpellData(lk: Lookups, s: SpellOut, data: Option<Data>) returns (r: Result<SpellOut>)
    ensures r == ExtraSpellData(lk, s, data)
  {
    if data.None? {
      return Err("TypeError: Cannot read properties of undefined (reading 'Spell Attack')");
    }
    var d := data.value;
    var newSpell := s;
    if Field(d, "Spell Attack").Some? {
      newSpell := newSpell.(attack := Some([("type", Str(lk.lowerCase(Field(d, "Spell Attack").value)))]));
    }
    if Field(d, "Save").Some? {
      var save: Obj := [("ability", Str(Field(d, "Save").value))];
      if Field(d, "Save Success").Some? {
        save := save + [("saveSuccess", Str(lk.lowerCase(Field(d, "Save Success").value)))];
      } else {
        assert save + [] == save;
      }
      assert save == SaveObject(lk, d);
      newSpell := newSpell.(save := Some(save));
    }
    assert newSpell == AttackAndSave(lk, s, d);
    var primary := AddDamage(lk, d, PrimaryDamageProps, PrimaryDamageOutputs, newSpell);
    if primary.Err? {
      return Err(primary.message);
    }
    var secondary := AddDamage(lk, d, SecondaryDamageProps, SecondOutputs(d), primary.value);
    if secondary.Err? {
      return Err(secondary.message);
    }
    newSpell := secondary.value;
    var healing := Field(d, "Healing");
    if healing.Some? {
      var heal := ProcessHealing(d, healing.value);
      newSpell := newSpell.(heal := Some(heal));
    }
    assert newSpell == WithHealing(secondary.value, d);
    return Ok(newSpell);
  }

  /** `processSpell`: the record is built field by field, then the supplementary data is added. */
  method ProcessSpell(lk: Lookups, spell: SpellIn, data: Option<Data>) returns (r: Result<SpellOut>)
    ensures r == ConvertSpell(lk, spell, data)
  {
    var newSpell := SpellOut(spell.name, spell.level, lk.schoolText(spell.school), false, "", "", "", "", "", None, None, None, None, None);
    if spell.ritual {
      newSpell := newSpell.(ritual := true);
    }
    newSpell := newSpell.(castingTime := lk.timeText(spell.time), range := lk.rangeText(spell.range),
                          components := lk.componentsText(spell.components), duration := lk.durationText(spell.duration));
    var described := ProcessSpellEntries(spell.entries);
    newSpell := newSpell.(description := described.description, higherLevel := described.higherLevel);
    var higher := HigherLevel(newSpell.higherLevel, spell.entriesHigherLevel);
    if higher.Err? {
      return Err(higher.message);
    }
    newSpell := newSpell.(higherLevel := higher.value);
    r := AddExtraSpellData(lk, newSpell, data);
  }
}
