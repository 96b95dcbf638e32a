/**
 * `convertData`: the pass over every loaded source that has not been converted yet. It converts
 * the source's monsters and spells, records each spell's level, appends each spell's name to the
 * class and archetype tables that list it (which may belong to another source), and then stamps
 * each source's output bundle: classes sorted by name, class and archetype spell lists ordered by
 * level and then name, empty lists dropped, and the schema version `2.0.0`.
 *
 * The `inputs` table is the `Converter`'s map field. Its records are values, so a write through
 * the source's `sourceObject` alias becomes a write to `inputs[target]`, and an alias of the file
 * being converted becomes a write to `inputs[dataKey]`. The pass's local `spellLevels` table is a
 * local map of the method. Each method is proved equal to a function of the old state, and the
 * ordering properties are proved about those functions.
 */
module Aggregate {
  import opened Wrappers
  import opened Text
  import opened Collections
  import opened External
  import opened Sorting
  import MonsterParts
  import Monster
  import Spell

  /** 5etools' `SRC_PHB`: the key of the Player's Handbook. */
  const Phb := "PHB"

  /** The output schema version stamped on every bundle. */
  const Version := "2.0.0"

  /** Subclasses whose spells the archetype tables leave out, since the SRD already carries them. */
  const SkippedSubclasses := ["Life", "Devotion", "Land", "Fiend"]

  // ---------------------------------------------------------------------------------------------
  // Records

  datatype Archetype = Archetype(name: string, spells: seq<string>)

  /** A class's `{archetypes, spells}`, as the spell pass builds it. */
  datatype ClassEntry = ClassEntry(archetypes: seq<Archetype>, spells: seq<string>)

  /** A source's `classes` object: class name to entry, in insertion order. */
  type Classes = seq<(string, ClassEntry)>

  /** A converted monster, or the stub kept for an SRD monster with lair data. */
  datatype MonsterResult =
    | FullMonster(monster: Monster.MonsterOut)
    | PrunedMonster(name: string, lair: MonsterParts.Lair)

  /** A converted spell, or the stub `{name: <SRD name>, newName: <name>}` for a renamed SRD spell. */
  datatype SpellResult =
    | FullSpell(spell: Spell.SpellOut)
    | RenamedSpell(name: string, newName: string)

  /** A class in the bundle: `archetypes` and `spells` are `None` where they were deleted. */
  datatype ClassOut = ClassOut(name: string, archetypes: Option<seq<Archetype>>, spells: Option<seq<string>>)

  /** The `converted` bundle of one source. */
  datatype Bundle = Bundle(
    name: string,
    dependencies: seq<string>,
    version: string,
    classes: Option<seq<ClassOut>>,
    monsters: Option<seq<MonsterResult>>,
    spells: Option<seq<SpellResult>>
  )

  /** One source record of `inputs`; a monster or spell file not loaded yet is `None`. */
  datatype Input = Input(
    name: string,
    dependencies: seq<string>,
    monsterInput: Option<seq<Monster.MonsterIn>>,
    spellInput: Option<seq<Spell.SpellIn>>,
    classes: Classes,
    monsters: Option<seq<MonsterResult>>,
    spells: Option<seq<SpellResult>>,
    converted: Option<Bundle>
  )

  /**
   * The read-only tables `convertData` is given besides `inputs`, the two per-record converters it
   * calls, `processMonster` and `processSpell`, and the way it records a spell's level in its
   * `spellLevels` table. `Wired` binds all three to the code's.
   */
  datatype Context = Context(
    lk: Lookups,
    srdMonsters: seq<string>,
    srdSpells: seq<string>,
    renames: seq<(string, string)>,
    additionalSpellData: seq<(string, Spell.Data)>,
    legendaryGroups: seq<(string, MonsterParts.LegendaryGroup)>,
    processMonster: Monster.MonsterIn -> Result<Monster.MonsterOut>,
    processSpell: (Spell.SpellIn, Option<Spell.Data>) -> Result<Spell.SpellOut>,
    recordLevel: (map<string, int>, Spell.SpellIn) -> map<string, int>
  )

  /**
   * The context's converters are `processMonster` and `processSpell` with its lookups and legendary
   * groups, and its level recording is the code's.
   */
  ghost predicate Wired(ctx: Context) {
    MonsterWired(ctx) && SpellWired(ctx) && LevelWired(ctx)
  }

  ghost predicate MonsterWired(ctx: Context) {
    forall m :: ctx.processMonster(m) == Monster.ConvertMonster(ctx.lk, m, ctx.legendaryGroups)
  }

  ghost predicate SpellWired(ctx: Context) {
    forall s, d :: ctx.processSpell(s, d) == Spell.ConvertSpell(ctx.lk, s, d)
  }

  ghost predicate LevelWired(ctx: Context) {
    forall levels, s :: ctx.recordLevel(levels, s) == RecordLevelAsWritten(levels, s)
  }

  /** The context `convertData` runs in: the given tables, and the converters bound to them. */
  function WiredContext(lk: Lookups, srdMonsters: seq<string>, srdSpells: seq<string>, renames: seq<(string, string)>,
                        additionalSpellData: seq<(string, Spell.Data)>, legendaryGroups: seq<(string, MonsterParts.LegendaryGroup)>): (ctx: Context)
    ensures Wired(ctx)
    ensures ctx.lk == lk && ctx.srdMonsters == srdMonsters && ctx.srdSpells == srdSpells && ctx.renames == renames
    ensures ctx.additionalSpellData == additionalSpellData && ctx.legendaryGroups == legendaryGroups
  {
    Context(lk, srdMonsters, srdSpells, renames, additionalSpellData, legendaryGroups,
            m => Monster.ConvertMonster(lk, m, legendaryGroups), (s, d) => Spell.ConvertSpell(lk, s, d),
            (levels, s) => RecordLevelAsWritten(levels, s))
  }

  function MonsterName(m: MonsterResult): string {
    if m.FullMonster? then m.monster.name else m.name
  }

  function SpellName(s: SpellResult): string {
    if s.FullSpell? then s.spell.name else s.name
  }

  function ArchetypeName(a: Archetype): string {
    a.name
  }

  function ClassName(c: ClassOut): string {
    c.name
  }

  // ---------------------------------------------------------------------------------------------
  // Comparators

  /** `localeCompare` is a consistent order: total and transitive. */
  ghost predicate LocaleOrder(le: (string, string) -> bool) {
    && (forall x, y :: le(x, y) || le(y, x))
    && (forall x, y, z :: le(x, y) && le(y, z) ==> le(x, z))
  }

  /** `(a, b) => a.name.localeCompare(b.name)`. */
  function ByName<T>(le: (string, string) -> bool, name: T -> string): (T, T) -> bool {
    (a, b) => le(name(a), name(b))
  }

  /**
   * `levelThenAlphaComparer`: levels ascending, then names. When a name has no entry in the level
   * table the difference is NaN, which the sort reads as 0, so the pair is kept in either order.
   */
  function LevelLe(levels: map<string, int>, le: (string, string) -> bool): (string, string) -> bool {
    (a, b) =>
      if a in levels && b in levels then
        if levels[a] == levels[b] then le(a, b) else levels[a] < levels[b]
      else true
  }

  /** Comparing by name is consistent whenever the string order is. */
  lemma ByNameOrders<T(!new)>(le: (string, string) -> bool, name: T -> string, s: seq<T>)
    requires LocaleOrder(le)
    ensures TotalPreorderOn(ByName(le, name), s)
  {
  }

  /** The level comparator is consistent on names that all have a level. */
  lemma LevelLeOrders(levels: map<string, int>, le: (string, string) -> bool, s: seq<string>)
    requires LocaleOrder(le)
    requires NamesLevelled(s, levels)
    ensures TotalPreorderOn(LevelLe(levels, le), s)
  {
    var order := LevelLe(levels, le);
    forall x, y, z | x in s && y in s && z in s && order(x, y) && order(y, z)
      ensures order(x, z)
    {
      if levels[x] == levels[y] && levels[y] == levels[z] {
        assert le(x, y) && le(y, z);
      }
    }
  }

  /**
   * A name without a level breaks the comparator: it sits "equal" to a level-1 and a level-0
   * spell, which are themselves strictly ordered, so no order of the three satisfies it.
   */
  lemma UnlevelledNameBreaksOrder(levels: map<string, int>, le: (string, string) -> bool, a: string, b: string, c: string)
    requires a in levels && c in levels && b !in levels && levels[a] > levels[c]
    ensures !TotalPreorderOn(LevelLe(levels, le), [a, b, c])
  {
    var order := LevelLe(levels, le);
    assert order(a, b) && order(b, c) && !order(a, c);
  }

  // ---------------------------------------------------------------------------------------------
  // Objects keyed by name

  /** `obj[k] = v`: an existing key keeps its place, a new one goes last. */
  function Put<V>(obj: seq<(string, V)>, k: string, v: V): (r: seq<(string, V)>)
    decreases |obj|
  {
    if obj == [] then [(k, v)]
    else if obj[0].0 == k then [(k, v)] + obj[1..]
    else [obj[0]] + Put(obj[1..], k, v)
  }

  /** After `obj[k] = v`, `k` reads `v` and every other key reads what it read before. */
  lemma {:induction false} PutLookup<V>(obj: seq<(string, V)>, k: string, v: V, other: string)
    ensures Lookup(Put(obj, k, v), other) == if other == k then Some(v) else Lookup(obj, other)
    decreases |obj|
  {
    if obj != [] && obj[0].0 != k {
      PutLookup(obj[1..], k, v, other);
    }
  }

  /** Every property after `obj[k] = v` is the new one or one that was there. */
  lemma {:induction false} PutMembers<V>(obj: seq<(string, V)>, k: string, v: V)
    ensures forall p :: p in Put(obj, k, v) ==> p == (k, v) || p in obj
    decreases |obj|
  {
    if obj != [] && obj[0].0 != k {
      PutMembers(obj[1..], k, v);
    }
  }

  lemma {:induction false} LookupMember<V>(obj: seq<(string, V)>, k: string)
    ensures Lookup(obj, k).Some? ==> (k, Lookup(obj, k).value) in obj
    decreases |obj|
  {
    if obj != [] && obj[0].0 != k {
      LookupMember(obj[1..], k);
    }
  }

  /** The spells listed under a class, none when it has no entry. */
  function ClassSpells(classes: Classes, className: string): seq<string> {
    Lookup(classes, className).GetOr(ClassEntry([], [])).spells
  }

  /** The archetypes listed under a class, none when it has no entry. */
  function ClassArchetypes(classes: Classes, className: string): seq<Archetype> {
    Lookup(classes, className).GetOr(ClassEntry([], [])).archetypes
  }

  /**
   * `archetypes.find(arch => arch.name === name)`, created and pushed when there is none, and then
   * `archetype.spells.push(spell)`.
   */
  function AddToArchetype(archs: seq<Archetype>, name: string, spell: string): seq<Archetype>
    decreases |archs|
  {
    if archs == [] then [Archetype(name, [spell])]
    else if archs[0].name == name then [Archetype(name, archs[0].spells + [spell])] + archs[1..]
    else [archs[0]] + AddToArchetype(archs[1..], name, spell)
  }

  /** The spells of the first archetype with that name, none when there is no such archetype. */
  function ArchetypeSpells(archs: seq<Archetype>, name: string): seq<string>
    decreases |archs|
  {
    if archs == [] then []
    else if archs[0].name == name then archs[0].spells
    else ArchetypeSpells(archs[1..], name)
  }

  /** Adding to an archetype appends the spell to that archetype's list and to no other. */
  lemma {:induction false} AddToArchetypeSpells(archs: seq<Archetype>, name: string, spell: string, other: string)
    ensures ArchetypeSpells(AddToArchetype(archs, name, spell), other)
         == if other == name then ArchetypeSpells(archs, name) + [spell] else ArchetypeSpells(archs, other)
    decreases |archs|
  {
    if archs != [] && archs[0].name != name {
      AddToArchetypeSpells(archs[1..], name, spell, other);
    }
  }

  // ---------------------------------------------------------------------------------------------
  // Indexing a spell under its classes and subclasses

  /** `srdSpellRenames[name]`. */
  function Rename(ctx: Context, name: string): Option<string> {
    Lookup(ctx.renames, name)
  }

  /** `srdSpellRenames[name] || name`: the name the class lists receive. */
  function NameToAdd(ctx: Context, name: string): string {
    if MonsterParts.Truthy(Rename(ctx, name)) then Rename(ctx, name).value else name
  }

  /** The spell, or the name it is renamed to, is an SRD spell. */
  predicate InSrd(ctx: Context, name: string) {
    name in ctx.srdSpells || (Rename(ctx, name).Some? && Rename(ctx, name).value in ctx.srdSpells)
  }

  /** The record an entry goes to: the file being converted for a PHB entry, else the entry's source. */
  function Target(dataKey: string, source: string): string {
    if source == Phb then dataKey else source
  }

  function PushClassSpell(input: Input, className: string, name: string): Input {
    var entry := Lookup(input.classes, className).GetOr(ClassEntry([], []));
    input.(classes := Put(input.classes, className, entry.(spells := entry.spells + [name])))
  }

  function PushArchetypeSpell(input: Input, className: string, archetype: string, name: string): Input {
    var entry := Lookup(input.classes, className).GetOr(ClassEntry([], []));
    input.(classes := Put(input.classes, className, entry.(archetypes := AddToArchetype(entry.archetypes, archetype, name))))
  }

  /** One element of `fromClassList.forEach`. */
  function ClassListed(ctx: Context, inputs: map<string, Input>, dataKey: string, spell: Spell.SpellIn, clazz: Spell.ClassRef): (r: map<string, Input>)
    ensures r.Keys == inputs.Keys
  {
    var target := Target(dataKey, clazz.source);
    if InSrd(ctx, spell.name) && clazz.source == Phb then inputs
    else if target !in inputs then inputs
    else inputs[target := PushClassSpell(inputs[target], clazz.name, NameToAdd(ctx, spell.name))]
  }

  function ClassListFold(ctx: Context, inputs: map<string, Input>, dataKey: string, spell: Spell.SpellIn, cs: seq<Spell.ClassRef>): (r: map<string, Input>)
    ensures r.Keys == inputs.Keys
    decreases |cs|
  {
    if cs == [] then inputs
    else ClassListed(ctx, ClassListFold(ctx, inputs, dataKey, spell, cs[..|cs| - 1]), dataKey, spell, cs[|cs| - 1])
  }

  /** `subSubclass || subclass name`. */
  function ArchetypeOf(sub: Spell.SubclassRef): string {
    if MonsterParts.Truthy(sub.subSubclass) then sub.subSubclass.value else sub.subclassName
  }

  /** One element of `(fromSubclass || []).forEach`. */
  function SubclassListed(ctx: Context, inputs: map<string, Input>, dataKey: string, spell: Spell.SpellIn, sub: Spell.SubclassRef): (r: map<string, Input>)
    ensures r.Keys == inputs.Keys
  {
    var target := Target(dataKey, sub.subclassSource);
    if sub.subclassName in SkippedSubclasses || sub.classSource !in inputs || target !in inputs then inputs
    else inputs[target := PushArchetypeSpell(inputs[target], sub.className, ArchetypeOf(sub), spell.name)]
  }

  function SubclassFold(ctx: Context, inputs: map<string, Input>, dataKey: string, spell: Spell.SpellIn, subs: seq<Spell.SubclassRef>): (r: map<string, Input>)
    ensures r.Keys == inputs.Keys
    decreases |subs|
  {
    if subs == [] then inputs
    else SubclassListed(ctx, SubclassFold(ctx, inputs, dataKey, spell, subs[..|subs| - 1]), dataKey, spell, subs[|subs| - 1])
  }

  /**
   * A class-list entry appends the name the class lists use to that class's list in the target
   * record and changes nothing else; a PHB entry for an SRD spell, or an entry whose source has no
   * record, changes nothing.
   */
  lemma ClassListedPushes(ctx: Context, inputs: map<string, Input>, dataKey: string, spell: Spell.SpellIn, clazz: Spell.ClassRef, other: string)
    ensures var target := Target(dataKey, clazz.source);
      var r := ClassListed(ctx, inputs, dataKey, spell, clazz);
      if (InSrd(ctx, spell.name) && clazz.source == Phb) || target !in inputs then r == inputs
      else
        && r == inputs[target := inputs[target].(classes := r[target].classes)]
        && ClassSpells(r[target].classes, clazz.name) == ClassSpells(inputs[target].classes, clazz.name) + [NameToAdd(ctx, spell.name)]
        && ClassArchetypes(r[target].classes, clazz.name) == ClassArchetypes(inputs[target].classes, clazz.name)
        && (other != clazz.name ==> Lookup(r[target].classes, other) == Lookup(inputs[target].classes, other))
  {
    var target := Target(dataKey, clazz.source);
    if !((InSrd(ctx, spell.name) && clazz.source == Phb) || target !in inputs) {
      var entry := Lookup(inputs[target].classes, clazz.name).GetOr(ClassEntry([], []));
      PutLookup(inputs[target].classes, clazz.name, entry.(spells := entry.spells + [NameToAdd(ctx, spell.name)]), clazz.name);
      PutLookup(inputs[target].classes, clazz.name, entry.(spells := entry.spells + [NameToAdd(ctx, spell.name)]), other);
    }
  }

  /**
   * A subclass entry appends the spell's own name to its archetype's list in the target record and
   * changes nothing else; the four skipped subclasses, and entries whose class source or target
   * has no record, change nothing.
   */
  lemma SubclassListedPushes(ctx: Context, inputs: map<string, Input>, dataKey: string, spell: Spell.SpellIn, sub: Spell.SubclassRef, other: string)
    ensures var target := Target(dataKey, sub.subclassSource);
      var r := SubclassListed(ctx, inputs, dataKey, spell, sub);
      if sub.subclassName in SkippedSubclasses || sub.classSource !in inputs || target !in inputs then r == inputs
      else
        && r == inputs[target := inputs[target].(classes := r[target].classes)]
        && ArchetypeSpells(ClassArchetypes(r[target].classes, sub.className), ArchetypeOf(sub))
           == ArchetypeSpells(ClassArchetypes(inputs[target].classes, sub.className), ArchetypeOf(sub)) + [spell.name]
        && ClassSpells(r[target].classes, sub.className) == ClassSpells(inputs[target].classes, sub.className)
        && (other != sub.className ==> Lookup(r[target].classes, other) == Lookup(inputs[target].classes, other))
  {
    var target := Target(dataKey, sub.subclassSource);
    if !(sub.subclassName in SkippedSubclasses || sub.classSource !in inputs || target !in inputs) {
      var entry := Lookup(inputs[target].classes, sub.className).GetOr(ClassEntry([], []));
      var archs := AddToArchetype(entry.archetypes, ArchetypeOf(sub), spell.name);
      PutLookup(inputs[target].classes, sub.className, entry.(archetypes := archs), sub.className);
      PutLookup(inputs[target].classes, sub.className, entry.(archetypes := archs), other);
      AddToArchetypeSpells(entry.archetypes, ArchetypeOf(sub), spell.name, ArchetypeOf(sub));
    }
  }

  // ---------------------------------------------------------------------------------------------
  // Spell levels

  /**
   * `spellLevels[spell.name] = spell.level` as written. A renamed spell's class lists receive the
   * new name, and the new name gets no level here.
   */
  function RecordLevelAsWritten(levels: map<string, int>, spell: Spell.SpellIn): (r: map<string, int>)
    ensures spell.name in r && r[spell.name] == spell.level
    ensures forall n :: n != spell.name ==> (n in r <==> n in levels)
  {
    levels[spell.name := spell.level]
  }

  /**
   * The level recorded as intended: under the spell's name and under the name its class lists
   * receive.
   */
  function RecordLevel(ctx: Context, levels: map<string, int>, spell: Spell.SpellIn): (r: map<string, int>)
    ensures spell.name in r && r[spell.name] == spell.level
    ensures NameToAdd(ctx, spell.name) in r && r[NameToAdd(ctx, spell.name)] == spell.level
    ensures levels.Keys <= r.Keys
  {
    levels[spell.name := spell.level][NameToAdd(ctx, spell.name) := spell.level]
  }

  /**
   * The context records every spell's level under its own name and under the name its class lists
   * receive, keeping the levels already recorded: the corrected recording.
   */
  ghost predicate RecordsRenames(ctx: Context) {
    forall levels: map<string, int>, s: Spell.SpellIn ::
      && levels.Keys <= ctx.recordLevel(levels, s).Keys
      && s.name in ctx.recordLevel(levels, s)
      && NameToAdd(ctx, s.name) in ctx.recordLevel(levels, s)
  }

  /** The context with the corrected level recording, and nothing else changed. */
  function CorrectedContext(ctx: Context): (c: Context)
    ensures RecordsRenames(c)
    ensures c.(recordLevel := ctx.recordLevel) == ctx
  {
    var c := ctx.(recordLevel := (levels, s) => RecordLevel(ctx, levels, s));
    assert forall n :: NameToAdd(c, n) == NameToAdd(ctx, n);
    c
  }

  /**
   * As written, a renamed spell listed for a class from a non-PHB source lands in that class's
   * list under its new name, and that name has no level.
   */
  lemma RenamedNameUnlevelledAsWritten(ctx: Context, inputs: map<string, Input>, dataKey: string, spell: Spell.SpellIn, clazz: Spell.ClassRef, levels: map<string, int>)
    requires MonsterParts.Truthy(Rename(ctx, spell.name)) && Rename(ctx, spell.name).value != spell.name
    requires Rename(ctx, spell.name).value !in levels
    requires clazz.source != Phb && clazz.source in inputs
    ensures var added := NameToAdd(ctx, spell.name);
      && added in ClassSpells(ClassListed(ctx, inputs, dataKey, spell, clazz)[clazz.source].classes, clazz.name)
      && added !in RecordLevelAsWritten(levels, spell)
      && (LevelWired(ctx) ==> added !in ctx.recordLevel(levels, spell))
  {
    ClassListedPushes(ctx, inputs, dataKey, spell, clazz, clazz.name);
  }

  // ---------------------------------------------------------------------------------------------
  // Converting one spell and one monster

  /** The pass's mutable state: the source table and the level table. */
  datatype Pass = Pass(inputs: map<string, Input>, levels: map<string, int>)

  /** The callback of `spellInput.map`, up to the value it returns: level and class tables updated. */
  function SpellIndexed(ctx: Context, p: Pass, dataKey: string, spell: Spell.SpellIn): (r: Pass)
    ensures r.inputs.Keys == p.inputs.Keys
  {
    var inputs := ClassListFold(ctx, p.inputs, dataKey, spell, spell.fromClassList);
    Pass(SubclassFold(ctx, inputs, dataKey, spell, spell.fromSubclass.GetOr([])), ctx.recordLevel(p.levels, spell))
  }

  /** The value the callback returns: `null` for an SRD spell, a stub for a renamed one, else the conversion. */
  function SpellResultOf(ctx: Context, file: string, spell: Spell.SpellIn): Result<Option<SpellResult>> {
    if spell.name in ctx.srdSpells then Ok(None)
    else if MonsterParts.Truthy(Rename(ctx, spell.name)) then Ok(Some(RenamedSpell(Rename(ctx, spell.name).value, spell.name)))
    else
      match ctx.processSpell(spell, Lookup(ctx.additionalSpellData, spell.name))
      case Err(e) => Err("Error with spell " + spell.name + " in file " + file + ":" + e)
      case Ok(s) => Ok(Some(FullSpell(s)))
  }

  /** An SRD spell yields no record; a renamed SRD spell yields its stub; any other its conversion. */
  lemma SpellResultCases(ctx: Context, file: string, spell: Spell.SpellIn)
    requires SpellWired(ctx)
    ensures spell.name in ctx.srdSpells ==> SpellResultOf(ctx, file, spell) == Ok(None)
    ensures spell.name !in ctx.srdSpells && MonsterParts.Truthy(Rename(ctx, spell.name)) ==>
      SpellResultOf(ctx, file, spell) == Ok(Some(RenamedSpell(Rename(ctx, spell.name).value, spell.name)))
    ensures spell.name !in ctx.srdSpells && !MonsterParts.Truthy(Rename(ctx, spell.name)) ==>
      (SpellResultOf(ctx, file, spell).Ok? <==> Spell.ConvertSpell(ctx.lk, spell, Lookup(ctx.additionalSpellData, spell.name)).Ok?)
    ensures SpellResultOf(ctx, file, spell).Ok? && SpellResultOf(ctx, file, spell).value.Some? ==>
      SpellName(SpellResultOf(ctx, file, spell).value.value) == NameToAdd(ctx, spell.name)
  {
  }

  /** What the converter keeps of an SRD monster: the name and lair fields, when more than one is truthy. */
  function Pruned(name: string, lair: MonsterParts.Lair): Option<MonsterResult> {
    var truthy := (if name != "" then 1 else 0)
      + (if lair.lairActions.Some? then 1 else 0)
      + (if lair.regionalEffects.Some? then 1 else 0)
      + (if MonsterParts.Truthy(lair.regionalEffectsFade) then 1 else 0);
    if truthy > 1 then Some(PrunedMonster(name, lair)) else None
  }

  /** The callback of `monsterInput.map`: the conversion, pruned for an SRD monster. */
  function MonsterResultOf(ctx: Context, file: string, m: Monster.MonsterIn): Result<Option<MonsterResult>> {
    match ctx.processMonster(m)
    case Err(e) => Err("Error with monster " + m.name + " in file " + file + ": " + e)
    case Ok(out) => Ok(if m.name in ctx.srdMonsters then Pruned(out.name, out.lair) else Some(FullMonster(out)))
  }

  function MonsterConversion(ctx: Context, file: string): Monster.MonsterIn -> Result<Option<MonsterResult>> {
    m => MonsterResultOf(ctx, file, m)
  }

  /** A lair field that `!!` counts. */
  predicate HasLair(lair: MonsterParts.Lair) {
    lair.lairActions.Some? || lair.regionalEffects.Some? || MonsterParts.Truthy(lair.regionalEffectsFade)
  }

  /**
   * A named SRD monster is dropped when its conversion has no lair data, and otherwise kept as its
   * name and lair data only; any other monster is kept whole.
   */
  lemma SrdMonsterPruned(ctx: Context, file: string, m: Monster.MonsterIn)
    requires MonsterWired(ctx) && Monster.ConvertMonster(ctx.lk, m, ctx.legendaryGroups).Ok? && m.name != ""
    ensures var out := Monster.ConvertMonster(ctx.lk, m, ctx.legendaryGroups).value;
      && (m.name in ctx.srdMonsters && !HasLair(out.lair) ==> MonsterResultOf(ctx, file, m) == Ok(None))
      && (m.name in ctx.srdMonsters && HasLair(out.lair) ==> MonsterResultOf(ctx, file, m) == Ok(Some(PrunedMonster(m.name, out.lair))))
      && (m.name !in ctx.srdMonsters ==> MonsterResultOf(ctx, file, m) == Ok(Some(FullMonster(out))))
  {
  }

  /** `.filter(x => !!x)`. */
  function Present<T>(xs: seq<Option<T>>): seq<T>
    decreases |xs|
  {
    if xs == [] then [] else (if xs[0].Some? then [xs[0].value] else []) + Present(xs[1..])
  }

  /** The filter keeps exactly the values that are there. */
  lemma {:induction false} PresentMembers<T>(xs: seq<Option<T>>, x: T)
    ensures x in Present(xs) <==> Some(x) in xs
    decreases |xs|
  {
    if xs != [] {
      PresentMembers(xs[1..], x);
      assert xs == [xs[0]] + xs[1..];
    }
  }

  // ---------------------------------------------------------------------------------------------
  // Converting one source

  datatype SpellsRun = SpellsRun(pass: Pass, result: Result<seq<Option<SpellResult>>>)

  /** `spellInput.map(callback)`: the state and the values so far, up to the first throw. */
  function SpellsFold(ctx: Context, p: Pass, dataKey: string, file: string, spells: seq<Spell.SpellIn>): (r: SpellsRun)
    ensures r.pass.inputs.Keys == p.inputs.Keys
    decreases |spells|
  {
    if spells == [] then SpellsRun(p, Ok([]))
    else
      var before := SpellsFold(ctx, p, dataKey, file, spells[..|spells| - 1]);
      if before.result.Err? then before
      else
        var spell := spells[|spells| - 1];
        var one := SpellResultOf(ctx, file, spell);
        SpellsRun(SpellIndexed(ctx, before.pass, dataKey, spell),
                  if one.Err? then Err(one.message) else Ok(before.result.value + [one.value]))
  }

  /** The outcome of a step of the pass: its state, and the error it threw if any. */
  datatype Outcome = Outcome(pass: Pass, error: Option<string>)

  /** The monster half of one source: `data.monsters`, unchanged when no monster file is loaded. */
  function MonstersOf(ctx: Context, data: Input): Result<Option<seq<MonsterResult>>> {
    if data.monsterInput.None? then Ok(data.monsters)
    else
      var rs :- MapResult(MonsterConversion(ctx, data.name), data.monsterInput.value);
      Ok(Some(InsertionSort(Present(rs), ByName(ctx.lk.localeLe, MonsterName))))
  }

  /** The spell half of one source: levels, class tables and `data.spells`. */
  function SpellsDone(ctx: Context, p: Pass, key: string): (r: Outcome)
    requires key in p.inputs
    ensures r.pass.inputs.Keys == p.inputs.Keys
  {
    var data := p.inputs[key];
    if data.spellInput.None? then Outcome(p, None)
    else
      var run := SpellsFold(ctx, p, key, data.name, data.spellInput.value);
      if run.result.Err? then Outcome(run.pass, Some(run.result.message))
      else
        var spells := InsertionSort(Present(run.result.value), ByName(ctx.lk.localeLe, SpellName));
        Outcome(Pass(run.pass.inputs[key := run.pass.inputs[key].(spells := Some(spells))], run.pass.levels), None)
  }

  /** One element of `toProcess.forEach` in the collecting pass. */
  function InputConverted(ctx: Context, p: Pass, key: string): (r: Outcome)
    requires key in p.inputs
    ensures r.pass.inputs.Keys == p.inputs.Keys
  {
    var monsters := MonstersOf(ctx, p.inputs[key]);
    if monsters.Err? then Outcome(p, Some(monsters.message))
    else SpellsDone(ctx, Pass(p.inputs[key := p.inputs[key].(monsters := monsters.value)], p.levels), key)
  }

  /** The collecting pass over the sources in `keys`, stopping at the first throw. */
  function CollectAll(ctx: Context, p: Pass, keys: seq<string>): (r: Outcome)
    requires forall k :: k in keys ==> k in p.inputs
    ensures r.pass.inputs.Keys == p.inputs.Keys
    decreases |keys|
  {
    if keys == [] then Outcome(p, None)
    else
      var before := CollectAll(ctx, p, keys[..|keys| - 1]);
      if before.error.Some? then before else InputConverted(ctx, before.pass, keys[|keys| - 1])
  }

  // ---------------------------------------------------------------------------------------------
  // Finalising one source

  /** Each archetype with its spells sorted. */
  function ArchetypesOrdered(archs: seq<Archetype>, order: (string, string) -> bool): (r: seq<Archetype>)
    ensures |r| == |archs|
  {
    seq(|archs|, i requires 0 <= i < |archs| => archs[i].(spells := InsertionSort(archs[i].spells, order)))
  }

  /** The callback of `Object.keys(classes).map`: spells sorted or deleted, archetypes sorted or deleted. */
  function FinalClass(levels: map<string, int>, le: (string, string) -> bool, name: string, c: ClassEntry): ClassOut {
    ClassOut(
      name,
      if c.archetypes == [] then None
      else Some(ArchetypesOrdered(InsertionSort(c.archetypes, ByName(le, ArchetypeName)), LevelLe(levels, le))),
      if c.spells == [] then None else Some(InsertionSort(c.spells, LevelLe(levels, le))))
  }

  function FinalClassOf(levels: map<string, int>, le: (string, string) -> bool): (ClassEntry, string) -> ClassOut {
    (c, name) => FinalClass(levels, le, name, c)
  }

  /** `input.converted` as the finalising pass builds it. */
  function Finalised(lk: Lookups, levels: map<string, int>, input: Input): Bundle {
    Bundle(
      input.name,
      input.dependencies,
      Version,
      if input.classes == [] then None
      else Some(InsertionSort(ObjMap(input.classes, FinalClassOf(levels, lk.localeLe)), ByName(lk.localeLe, ClassName))),
      if input.monsters.Some? && input.monsters.value != [] then input.monsters else None,
      if input.spells.Some? && input.spells.value != [] then input.spells else None)
  }

  function FinaliseAll(lk: Lookups, levels: map<string, int>, inputs: map<string, Input>, keys: seq<string>): (r: map<string, Input>)
    requires forall k :: k in keys ==> k in inputs
    ensures r.Keys == inputs.Keys
    decreases |keys|
  {
    if keys == [] then inputs
    else
      var before := FinaliseAll(lk, levels, inputs, keys[..|keys| - 1]);
      var k := keys[|keys| - 1];
      before[k := before[k].(converted := Some(Finalised(lk, levels, before[k])))]
  }

  // ---------------------------------------------------------------------------------------------
  // The whole pass

  /** `!input.converted && (isObject(input.monsterInput) || isObject(input.spellInput))`. */
  predicate Pending(inputs: map<string, Input>, k: string) {
    k in inputs && inputs[k].converted.None? && (inputs[k].monsterInput.Some? || inputs[k].spellInput.Some?)
  }

  /** `Object.values(inputs).filter(...)`, by key. */
  function ToProcess(order: seq<string>, inputs: map<string, Input>): seq<string>
    decreases |order|
  {
    if order == [] then []
    else (if Pending(inputs, order[0]) then [order[0]] else []) + ToProcess(order[1..], inputs)
  }

  /** The pass converts exactly the pending sources, in table order. */
  lemma {:induction false} ToProcessMembers(order: seq<string>, inputs: map<string, Input>, k: string)
    ensures k in ToProcess(order, inputs) <==> k in order && Pending(inputs, k)
    decreases |order|
  {
    if order != [] {
      ToProcessMembers(order[1..], inputs, k);
      assert order == [order[0]] + order[1..];
    }
  }

  lemma ToProcessInInputs(order: seq<string>, inputs: map<string, Input>)
    ensures forall k :: k in ToProcess(order, inputs) ==> k in inputs
  {
    forall k | k in ToProcess(order, inputs) ensures k in inputs {
      ToProcessMembers(order, inputs, k);
    }
  }

  /** `convertData`: collect every pending source, then, when nothing threw, finalise each of them. */
  function ConvertAll(ctx: Context, inputs: map<string, Input>, order: seq<string>): (r: Outcome) {
    var keys := ToProcess(order, inputs);
    ToProcessInInputs(order, inputs);
    var collected := CollectAll(ctx, Pass(inputs, map[]), keys);
    if collected.error.Some? then collected
    else Outcome(Pass(FinaliseAll(ctx.lk, collected.pass.levels, collected.pass.inputs, keys), collected.pass.levels), None)
  }

  // ---------------------------------------------------------------------------------------------
  // Class tables whose every name has a level

  predicate NamesLevelled(names: seq<string>, levels: map<string, int>) {
    forall n :: n in names ==> n in levels
  }

  predicate EntryLevelled(c: ClassEntry, levels: map<string, int>) {
    NamesLevelled(c.spells, levels) && forall a :: a in c.archetypes ==> NamesLevelled(a.spells, levels)
  }

  predicate ClassesLevelled(classes: Classes, levels: map<string, int>) {
    forall p :: p in classes ==> EntryLevelled(p.1, levels)
  }

  /** Every name in every class and archetype list of every source has a level. */
  predicate Levelled(inputs: map<string, Input>, levels: map<string, int>) {
    forall k :: k in inputs ==> ClassesLevelled(inputs[k].classes, levels)
  }

  lemma LevelledGrow(inputs: map<string, Input>, levels: map<string, int>, more: map<string, int>)
    requires Levelled(inputs, levels) && levels.Keys <= more.Keys
    ensures Levelled(inputs, more)
  {
  }

  lemma LookupLevelled(classes: Classes, className: string, levels: map<string, int>)
    requires ClassesLevelled(classes, levels)
    ensures EntryLevelled(Lookup(classes, className).GetOr(ClassEntry([], [])), levels)
  {
    LookupMember(classes, className);
  }

  lemma PutLevelled(classes: Classes, className: string, entry: ClassEntry, levels: map<string, int>)
    requires ClassesLevelled(classes, levels) && EntryLevelled(entry, levels)
    ensures ClassesLevelled(Put(classes, className, entry), levels)
  {
    PutMembers(classes, className, entry);
  }

  lemma {:induction false} AddToArchetypeLevelled(archs: seq<Archetype>, name: string, spell: string, levels: map<string, int>)
    requires forall a :: a in archs ==> NamesLevelled(a.spells, levels)
    requires spell in levels
    ensures forall a :: a in AddToArchetype(archs, name, spell) ==> NamesLevelled(a.spells, levels)
    decreases |archs|
  {
    if archs != [] && archs[0].name != name {
      AddToArchetypeLevelled(archs[1..], name, spell, levels);
    }
  }

  /** A class-list entry keeps the tables levelled when the name it adds has a level. */
  lemma ClassListedLevelled(ctx: Context, inputs: map<string, Input>, dataKey: string, spell: Spell.SpellIn, clazz: Spell.ClassRef, levels: map<string, int>)
    requires Levelled(inputs, levels) && NameToAdd(ctx, spell.name) in levels
    ensures Levelled(ClassListed(ctx, inputs, dataKey, spell, clazz), levels)
  {
    var target := Target(dataKey, clazz.source);
    if !(InSrd(ctx, spell.name) && clazz.source == Phb) && target in inputs {
      var classes := inputs[target].classes;
      var entry := Lookup(classes, clazz.name).GetOr(ClassEntry([], []));
      LookupLevelled(classes, clazz.name, levels);
      PutLevelled(classes, clazz.name, entry.(spells := entry.spells + [NameToAdd(ctx, spell.name)]), levels);
    }
  }

  lemma {:induction false} ClassListFoldLevelled(ctx: Context, inputs: map<string, Input>, dataKey: string, spell: Spell.SpellIn, cs: seq<Spell.ClassRef>, levels: map<string, int>)
    requires Levelled(inputs, levels) && NameToAdd(ctx, spell.name) in levels
    ensures Levelled(ClassListFold(ctx, inputs, dataKey, spell, cs), levels)
    decreases |cs|
  {
    if cs != [] {
      ClassListFoldLevelled(ctx, inputs, dataKey, spell, cs[..|cs| - 1], levels);
      ClassListedLevelled(ctx, ClassListFold(ctx, inputs, dataKey, spell, cs[..|cs| - 1]), dataKey, spell, cs[|cs| - 1], levels);
    }
  }

  /** A subclass entry keeps the tables levelled when the spell's name has a level. */
  lemma SubclassListedLevelled(ctx: Context, inputs: map<string, Input>, dataKey: string, spell: Spell.SpellIn, sub: Spell.SubclassRef, levels: map<string, int>)
    requires Levelled(inputs, levels) && spell.name in levels
    ensures Levelled(SubclassListed(ctx, inputs, dataKey, spell, sub), levels)
  {
    var target := Target(dataKey, sub.subclassSource);
    if !(sub.subclassName in SkippedSubclasses || sub.classSource !in inputs || target !in inputs) {
      var classes := inputs[target].classes;
      var entry := Lookup(classes, sub.className).GetOr(ClassEntry([], []));
      LookupLevelled(classes, sub.className, levels);
      AddToArchetypeLevelled(entry.archetypes, ArchetypeOf(sub), spell.name, levels);
      PutLevelled(classes, sub.className, entry.(archetypes := AddToArchetype(entry.archetypes, ArchetypeOf(sub), spell.name)), levels);
    }
  }

  lemma {:induction false} SubclassFoldLevelled(ctx: Context, inputs: map<string, Input>, dataKey: string, spell: Spell.SpellIn, subs: seq<Spell.SubclassRef>, levels: map<string, int>)
    requires Levelled(inputs, levels) && spell.name in levels
    ensures Levelled(SubclassFold(ctx, inputs, dataKey, spell, subs), levels)
    decreases |subs|
  {
    if subs != [] {
      SubclassFoldLevelled(ctx, inputs, dataKey, spell, subs[..|subs| - 1], levels);
      SubclassListedLevelled(ctx, SubclassFold(ctx, inputs, dataKey, spell, subs[..|subs| - 1]), dataKey, spell, subs[|subs| - 1], levels);
    }
  }

  /** Indexing a spell keeps every listed name levelled, and forgets no level. */
  lemma SpellIndexedLevelled(ctx: Context, p: Pass, dataKey: string, spell: Spell.SpellIn)
    requires RecordsRenames(ctx) && Levelled(p.inputs, p.levels)
    ensures var r := SpellIndexed(ctx, p, dataKey, spell);
      Levelled(r.inputs, r.levels) && p.levels.Keys <= r.levels.Keys && spell.name in r.levels
  {
    var levels := ctx.recordLevel(p.levels, spell);
    LevelledGrow(p.inputs, p.levels, levels);
    ClassListFoldLevelled(ctx, p.inputs, dataKey, spell, spell.fromClassList, levels);
    var inputs := ClassListFold(ctx, p.inputs, dataKey, spell, spell.fromClassList);
    SubclassFoldLevelled(ctx, inputs, dataKey, spell, spell.fromSubclass.GetOr([]), levels);
  }

  /**
   * Under the corrected level recording, the spell pass over a file keeps every listed name
   * levelled, and, when it completes, every spell of the file has a level.
   */
  lemma {:induction false} SpellsFoldLevelled(ctx: Context, p: Pass, dataKey: string, file: string, spells: seq<Spell.SpellIn>)
    requires RecordsRenames(ctx)
    requires Levelled(p.inputs, p.levels)
    ensures var r := SpellsFold(ctx, p, dataKey, file, spells);
      && Levelled(r.pass.inputs, r.pass.levels) && p.levels.Keys <= r.pass.levels.Keys
      && (r.result.Ok? ==> forall s :: s in spells ==> s.name in r.pass.levels)
    decreases |spells|
  {
    if spells != [] {
      var init := spells[..|spells| - 1];
      SpellsFoldLevelled(ctx, p, dataKey, file, init);
      var before := SpellsFold(ctx, p, dataKey, file, init);
      if before.result.Ok? {
        var last := spells[|spells| - 1];
        var r := SpellsFold(ctx, p, dataKey, file, spells);
        assert r.pass == SpellIndexed(ctx, before.pass, dataKey, last);
        SpellIndexedLevelled(ctx, before.pass, dataKey, last);
        forall s | s in spells && r.result.Ok? ensures s.name in r.pass.levels {
          if s != last {
            assert s in init by {
              assert spells == init + [last];
            }
          }
        }
      }
    }
  }

  lemma SpellsDoneLevelled(ctx: Context, p: Pass, key: string)
    requires RecordsRenames(ctx) && key in p.inputs && Levelled(p.inputs, p.levels)
    ensures var r := SpellsDone(ctx, p, key);
      Levelled(r.pass.inputs, r.pass.levels) && p.levels.Keys <= r.pass.levels.Keys
  {
    var data := p.inputs[key];
    if data.spellInput.Some? {
      SpellsFoldLevelled(ctx, p, key, data.name, data.spellInput.value);
    }
  }

  lemma InputConvertedLevelled(ctx: Context, p: Pass, key: string)
    requires RecordsRenames(ctx) && key in p.inputs && Levelled(p.inputs, p.levels)
    ensures var r := InputConverted(ctx, p, key);
      Levelled(r.pass.inputs, r.pass.levels) && p.levels.Keys <= r.pass.levels.Keys
  {
    var monsters := MonstersOf(ctx, p.inputs[key]);
    if monsters.Ok? {
      SpellsDoneLevelled(ctx, Pass(p.inputs[key := p.inputs[key].(monsters := monsters.value)], p.levels), key);
    }
  }

  lemma {:induction false} CollectAllLevelled(ctx: Context, p: Pass, keys: seq<string>)
    requires RecordsRenames(ctx)
    requires forall k :: k in keys ==> k in p.inputs
    requires Levelled(p.inputs, p.levels)
    ensures Levelled(CollectAll(ctx, p, keys).pass.inputs, CollectAll(ctx, p, keys).pass.levels)
    decreases |keys|
  {
    if keys != [] {
      CollectAllLevelled(ctx, p, keys[..|keys| - 1]);
      var before := CollectAll(ctx, p, keys[..|keys| - 1]);
      if before.error.None? {
        InputConvertedLevelled(ctx, before.pass, keys[|keys| - 1]);
      }
    }
  }

  // ---------------------------------------------------------------------------------------------
  // What finalising guarantees

  /** A finalised class: present lists are non-empty and ordered, and every listed name has a level. */
  predicate OrderedClass(c: ClassOut, levels: map<string, int>, le: (string, string) -> bool) {
    && (c.spells.Some? ==>
          c.spells.value != [] && SortedBy(c.spells.value, LevelLe(levels, le)) && NamesLevelled(c.spells.value, levels))
    && (c.archetypes.Some? ==>
          && c.archetypes.value != []
          && SortedBy(c.archetypes.value, ByName(le, ArchetypeName))
          && forall a :: a in c.archetypes.value ==> SortedBy(a.spells, LevelLe(levels, le)) && NamesLevelled(a.spells, levels))
  }

  /** A finalised bundle: the version stamp, classes ordered by name, and no empty list. */
  predicate OrderedBundle(b: Bundle, levels: map<string, int>, le: (string, string) -> bool) {
    && b.version == Version
    && (b.classes.Some? ==>
          && b.classes.value != []
          && SortedBy(b.classes.value, ByName(le, ClassName))
          && forall c :: c in b.classes.value ==> OrderedClass(c, levels, le))
    && (b.monsters.Some? ==> b.monsters.value != [])
    && (b.spells.Some? ==> b.spells.value != [])
  }

  /** Sorting a list of levelled names orders it by level and name, and keeps every name. */
  lemma SpellListOrdered(levels: map<string, int>, le: (string, string) -> bool, names: seq<string>)
    requires LocaleOrder(le) && NamesLevelled(names, levels)
    ensures var sorted := InsertionSort(names, LevelLe(levels, le));
      SortedBy(sorted, LevelLe(levels, le)) && multiset(sorted) == multiset(names) && NamesLevelled(sorted, levels)
  {
    LevelLeOrders(levels, le, names);
    InsertionSortSorted(names, LevelLe(levels, le));
    InsertionSortPermutes(names, LevelLe(levels, le));
    var sorted := InsertionSort(names, LevelLe(levels, le));
    forall n | n in sorted ensures n in levels {
      assert n in multiset(sorted);
    }
  }

  /**
   * Finalising a class orders its spells by level and name and its archetypes by name, each
   * archetype's spells by level and name, keeps every name, and deletes exactly the empty lists.
   */
  lemma FinalClassOrdered(levels: map<string, int>, le: (string, string) -> bool, name: string, c: ClassEntry)
    requires LocaleOrder(le) && EntryLevelled(c, levels)
    ensures var out := FinalClass(levels, le, name, c);
      && out.name == name
      && OrderedClass(out, levels, le)
      && (out.spells.Some? <==> c.spells != [])
      && (out.spells.Some? ==> multiset(out.spells.value) == multiset(c.spells))
      && (out.archetypes.Some? <==> c.archetypes != [])
      && (out.archetypes.Some? ==> |out.archetypes.value| == |c.archetypes|)
  {
    if c.spells != [] {
      SpellListOrdered(levels, le, c.spells);
    }
    if c.archetypes != [] {
      ArchetypeListOrdered(levels, le, c.archetypes);
    }
  }

  /** Sorting the archetypes by name and each one's spells by level and name. */
  lemma ArchetypeListOrdered(levels: map<string, int>, le: (string, string) -> bool, archs: seq<Archetype>)
    requires LocaleOrder(le)
    requires forall a :: a in archs ==> NamesLevelled(a.spells, levels)
    ensures var out := ArchetypesOrdered(InsertionSort(archs, ByName(le, ArchetypeName)), LevelLe(levels, le));
      && SortedBy(out, ByName(le, ArchetypeName))
      && forall a :: a in out ==> SortedBy(a.spells, LevelLe(levels, le)) && NamesLevelled(a.spells, levels)
  {
    var order := LevelLe(levels, le);
    var byName := ByName(le, ArchetypeName);
    ByNameOrders(le, ArchetypeName, archs);
    InsertionSortSorted(archs, byName);
    InsertionSortPermutes(archs, byName);
    var sorted := InsertionSort(archs, byName);
    var out := ArchetypesOrdered(sorted, order);
    forall i, j | 0 <= i < j < |out| ensures byName(out[i], out[j]) {
      assert byName(sorted[i], sorted[j]);
    }
    forall a | a in out ensures SortedBy(a.spells, order) && NamesLevelled(a.spells, levels) {
      var i :| 0 <= i < |out| && out[i] == a;
      assert sorted[i] in multiset(archs);
      SpellListOrdered(levels, le, sorted[i].spells);
    }
  }

  /** Every class a finalised table holds is the finalised form of one of the collected entries. */
  lemma ObjMapClasses(levels: map<string, int>, le: (string, string) -> bool, classes: Classes, c: ClassOut)
    requires c in ObjMap(classes, FinalClassOf(levels, le))
    ensures exists i :: 0 <= i < |classes| && c == FinalClass(levels, le, classes[i].0, classes[i].1)
  {
    var i :| 0 <= i < |ObjMap(classes, FinalClassOf(levels, le))| && ObjMap(classes, FinalClassOf(levels, le))[i] == c;
    ObjMapAt(classes, FinalClassOf(levels, le), i);
  }

  /**
   * A finalised bundle carries the source's name and dependencies and the version stamp; its
   * classes are one per collected class, ordered by name, each ordered as above; its monster and
   * spell lists are the collected ones, dropped when empty.
   */
  lemma FinalisedOrdered(lk: Lookups, levels: map<string, int>, input: Input)
    requires LocaleOrder(lk.localeLe) && ClassesLevelled(input.classes, levels)
    ensures var b := Finalised(lk, levels, input);
      && b.name == input.name && b.dependencies == input.dependencies
      && OrderedBundle(b, levels, lk.localeLe)
      && (b.classes.Some? <==> input.classes != [])
      && (b.classes.Some? ==> |b.classes.value| == |input.classes|)
      && (b.monsters.Some? <==> input.monsters.Some? && input.monsters.value != [])
      && (b.monsters.Some? ==> b.monsters == input.monsters)
      && (b.spells.Some? <==> input.spells.Some? && input.spells.value != [])
      && (b.spells.Some? ==> b.spells == input.spells)
  {
    var le := lk.localeLe;
    if input.classes != [] {
      var outs := ObjMap(input.classes, FinalClassOf(levels, le));
      var byName := ByName(le, ClassName);
      ByNameOrders(le, ClassName, outs);
      InsertionSortSorted(outs, byName);
      InsertionSortPermutes(outs, byName);
      forall c | c in InsertionSort(outs, byName) ensures OrderedClass(c, levels, le) {
        assert c in multiset(outs);
        ObjMapClasses(levels, le, input.classes, c);
        var i :| 0 <= i < |input.classes| && c == FinalClass(levels, le, input.classes[i].0, input.classes[i].1);
        assert input.classes[i] in input.classes;
        FinalClassOrdered(levels, le, input.classes[i].0, input.classes[i].1);
      }
    }
  }

  /** The finalising pass stamps exactly the sources in `keys`, each from its own collected record. */
  lemma {:induction false} FinaliseAllAt(lk: Lookups, levels: map<string, int>, inputs: map<string, Input>, keys: seq<string>, k: string)
    requires forall k :: k in keys ==> k in inputs
    requires k in inputs
    ensures FinaliseAll(lk, levels, inputs, keys)[k]
         == if k in keys then inputs[k].(converted := Some(Finalised(lk, levels, inputs[k]))) else inputs[k]
    decreases |keys|
  {
    if keys != [] {
      var init := keys[..|keys| - 1];
      FinaliseAllAt(lk, levels, inputs, init, k);
      assert keys == init + [keys[|keys| - 1]];
    }
  }

  /**
   * `convertData` as a whole: starting from class tables that list no spell (as the input loader
   * creates them), a pass that throws nothing gives every pending source a bundle whose classes
   * are ordered by name and whose class and archetype lists are ordered by level and name, with
   * every listed name present in the level table. This needs the corrected level recording
   * (`RecordsRenames`, which `CorrectedContext` provides): with the code's, a renamed spell's
   * listed name has no level (`RenamedNameUnlevelledAsWritten`) and the order breaks
   * (`UnlevelledNameBreaksOrder`).
   */
  lemma ConvertAllOrdered(ctx: Context, inputs: map<string, Input>, order: seq<string>, k: string)
    requires RecordsRenames(ctx)
    requires LocaleOrder(ctx.lk.localeLe)
    requires Levelled(inputs, map[])
    requires k in ToProcess(order, inputs)
    ensures var r := ConvertAll(ctx, inputs, order);
      r.error.None? ==>
        && k in r.pass.inputs
        && r.pass.inputs[k].converted.Some?
        && r.pass.inputs[k].converted.value.name == inputs[k].name
        && OrderedBundle(r.pass.inputs[k].converted.value, r.pass.levels, ctx.lk.localeLe)
  {
    var keys := ToProcess(order, inputs);
    ToProcessInInputs(order, inputs);
    CollectAllLevelled(ctx, Pass(inputs, map[]), keys);
    var collected := CollectAll(ctx, Pass(inputs, map[]), keys);
    if collected.error.None? {
      FinaliseAllAt(ctx.lk, collected.pass.levels, collected.pass.inputs, keys, k);
      FinalisedOrdered(ctx.lk, collected.pass.levels, collected.pass.inputs[k]);
      CollectAllKeepsNames(ctx, Pass(inputs, map[]), keys, k);
    }
  }

  /** No step of the pass renames a source. */
  lemma {:induction false} CollectAllKeepsNames(ctx: Context, p: Pass, keys: seq<string>, k: string)
    requires forall k :: k in keys ==> k in p.inputs
    requires k in p.inputs
    ensures CollectAll(ctx, p, keys).pass.inputs[k].name == p.inputs[k].name
    decreases |keys|
  {
    if keys != [] {
      CollectAllKeepsNames(ctx, p, keys[..|keys| - 1], k);
      var before := CollectAll(ctx, p, keys[..|keys| - 1]);
      if before.error.None? {
        InputConvertedKeepsNames(ctx, before.pass, keys[|keys| - 1], k);
      }
    }
  }

  lemma InputConvertedKeepsNames(ctx: Context, p: Pass, key: string, k: string)
    requires key in p.inputs && k in p.inputs
    ensures InputConverted(ctx, p, key).pass.inputs[k].name == p.inputs[k].name
  {
    var monsters := MonstersOf(ctx, p.inputs[key]);
    if monsters.Ok? {
      var p1 := Pass(p.inputs[key := p.inputs[key].(monsters := monsters.value)], p.levels);
      var data := p1.inputs[key];
      if data.spellInput.Some? {
        SpellsFoldKeepsNames(ctx, p1, key, data.name, data.spellInput.value, k);
      }
    }
  }

  lemma {:induction false} SpellsFoldKeepsNames(ctx: Context, p: Pass, dataKey: string, file: string, spells: seq<Spell.SpellIn>, k: string)
    requires k in p.inputs
    ensures SpellsFold(ctx, p, dataKey, file, spells).pass.inputs[k].name == p.inputs[k].name
    decreases |spells|
  {
    if spells != [] {
      SpellsFoldKeepsNames(ctx, p, dataKey, file, spells[..|spells| - 1], k);
      var before := SpellsFold(ctx, p, dataKey, file, spells[..|spells| - 1]);
      if before.result.Ok? {
        var spell := spells[|spells| - 1];
        ClassListFoldKeepsNames(ctx, before.pass.inputs, dataKey, spell, spell.fromClassList, k);
        var inputs := ClassListFold(ctx, before.pass.inputs, dataKey, spell, spell.fromClassList);
        SubclassFoldKeepsNames(ctx, inputs, dataKey, spell, spell.fromSubclass.GetOr([]), k);
      }
    }
  }

  lemma {:induction false} ClassListFoldKeepsNames(ctx: Context, inputs: map<string, Input>, dataKey: string, spell: Spell.SpellIn, cs: seq<Spell.ClassRef>, k: string)
    requires k in inputs
    ensures ClassListFold(ctx, inputs, dataKey, spell, cs)[k].name == inputs[k].name
    decreases |cs|
  {
    if cs != [] {
      ClassListFoldKeepsNames(ctx, inputs, dataKey, spell, cs[..|cs| - 1], k);
    }
  }

  lemma {:induction false} SubclassFoldKeepsNames(ctx: Context, inputs: map<string, Input>, dataKey: string, spell: Spell.SpellIn, subs: seq<Spell.SubclassRef>, k: string)
    requires k in inputs
    ensures SubclassFold(ctx, inputs, dataKey, spell, subs)[k].name == inputs[k].name
    decreases |subs|
  {
    if subs != [] {
      SubclassFoldKeepsNames(ctx, inputs, dataKey, spell, subs[..|subs| - 1], k);
    }
  }

  /** A monster file's list ends up ordered by name. */
  lemma MonstersOrdered(ctx: Context, data: Input)
    requires LocaleOrder(ctx.lk.localeLe)
    requires data.monsterInput.Some? && MonstersOf(ctx, data).Ok?
    ensures MonstersOf(ctx, data).value.Some?
    ensures SortedBy(MonstersOf(ctx, data).value.value, ByName(ctx.lk.localeLe, MonsterName))
  {
    var rs := MapResult(MonsterConversion(ctx, data.name), data.monsterInput.value).value;
    ByNameOrders(ctx.lk.localeLe, MonsterName, Present(rs));
    InsertionSortSorted(Present(rs), ByName(ctx.lk.localeLe, MonsterName));
  }

  /** A spell file's list ends up ordered by name. */
  lemma SpellsOrdered(ctx: Context, p: Pass, key: string)
    requires LocaleOrder(ctx.lk.localeLe)
    requires key in p.inputs && p.inputs[key].spellInput.Some?
    ensures var r := SpellsDone(ctx, p, key);
      r.error.None? ==> r.pass.inputs[key].spells.Some? && SortedBy(r.pass.inputs[key].spells.value, ByName(ctx.lk.localeLe, SpellName))
  {
    var data := p.inputs[key];
    var run := SpellsFold(ctx, p, key, data.name, data.spellInput.value);
    if run.result.Ok? {
      ByNameOrders(ctx.lk.localeLe, SpellName, Present(run.result.value));
      InsertionSortSorted(Present(run.result.value), ByName(ctx.lk.localeLe, SpellName));
    }
  }

  // ---------------------------------------------------------------------------------------------
  // Stopping at a throw

  /** After a prefix that threw nothing, the spell pass goes on with the next spell. */
  lemma SpellsFoldStep(ctx: Context, p: Pass, dataKey: string, file: string, spells: seq<Spell.SpellIn>, i: nat)
    requires i < |spells| && SpellsFold(ctx, p, dataKey, file, spells[..i]).result.Ok?
    ensures var before := SpellsFold(ctx, p, dataKey, file, spells[..i]);
      var one := SpellResultOf(ctx, file, spells[i]);
      SpellsFold(ctx, p, dataKey, file, spells[..i + 1])
        == SpellsRun(SpellIndexed(ctx, before.pass, dataKey, spells[i]),
                     if one.Err? then Err(one.message) else Ok(before.result.value + [one.value]))
  {
    assert spells[..i + 1][..i] == spells[..i];
  }

  lemma {:induction false} SpellsFoldStops(ctx: Context, p: Pass, dataKey: string, file: string, spells: seq<Spell.SpellIn>, n: nat)
    requires 0 < n <= |spells| && SpellsFold(ctx, p, dataKey, file, spells[..n]).result.Err?
    ensures SpellsFold(ctx, p, dataKey, file, spells) == SpellsFold(ctx, p, dataKey, file, spells[..n])
    decreases |spells| - n
  {
    if n < |spells| {
      var init := spells[..|spells| - 1];
      assert init[..n] == spells[..n];
      SpellsFoldStops(ctx, p, dataKey, file, init, n);
    } else {
      assert spells[..n] == spells;
    }
  }

  lemma {:induction false} CollectAllStops(ctx: Context, p: Pass, keys: seq<string>, n: nat)
    requires forall k :: k in keys ==> k in p.inputs
    requires 0 < n <= |keys| && CollectAll(ctx, p, keys[..n]).error.Some?
    ensures CollectAll(ctx, p, keys) == CollectAll(ctx, p, keys[..n])
    decreases |keys| - n
  {
    if n < |keys| {
      var init := keys[..|keys| - 1];
      assert init[..n] == keys[..n];
      CollectAllStops(ctx, p, init, n);
    } else {
      assert keys[..n] == keys;
    }
  }

  // ---------------------------------------------------------------------------------------------
  // The converter

  /** `clazz` after the finalising pass: spells sorted or deleted, archetypes sorted or deleted. */
  method FinaliseClass(levels: map<string, int>, le: (string, string) -> bool, name: string, c: ClassEntry) returns (out: ClassOut)
    ensures out == FinalClass(levels, le, name, c)
  {
    var order := LevelLe(levels, le);
    var spells: Option<seq<string>> := None;
    if c.spells != [] {
      var sorted := Sort(c.spells, order);
      spells := Some(sorted);
    }
    var archetypes: Option<seq<Archetype>> := None;
    if c.archetypes != [] {
      var sorted := Sort(c.archetypes, ByName(le, ArchetypeName));
      var done := OrderArchetypes(sorted, order);
      archetypes := Some(done);
    }
    out := ClassOut(name, archetypes, spells);
  }

  /** `clazz.archetypes.forEach(...)`: each archetype's spells sorted. */
  method OrderArchetypes(archs: seq<Archetype>, order: (string, string) -> bool) returns (done: seq<Archetype>)
    ensures done == ArchetypesOrdered(archs, order)
  {
    done := [];
    for i := 0 to |archs|
      invariant |done| == i
      invariant forall j :: 0 <= j < i ==> done[j] == archs[j].(spells := InsertionSort(archs[j].spells, order))
    {
      var archSpells := Sort(archs[i].spells, order);
      done := done + [archs[i].(spells := archSpells)];
    }
  }

  /** `Object.keys(classes).map(...).sort(...)`: the finalised classes, ordered by name. */
  method FinaliseClasses(levels: map<string, int>, le: (string, string) -> bool, classes: Classes) returns (outs: seq<ClassOut>)
    ensures outs == InsertionSort(ObjMap(classes, FinalClassOf(levels, le)), ByName(le, ClassName))
  {
    var mapped: seq<ClassOut> := [];
    for i := 0 to |classes|
      invariant |mapped| == i
      invariant forall j :: 0 <= j < i ==> mapped[j] == FinalClass(levels, le, classes[j].0, classes[j].1)
    {
      var out := FinaliseClass(levels, le, classes[i].0, classes[i].1);
      mapped := mapped + [out];
    }
    forall j | 0 <= j < |mapped| ensures mapped[j] == ObjMap(classes, FinalClassOf(levels, le))[j] {
      ObjMapAt(classes, FinalClassOf(levels, le), j);
    }
    assert mapped == ObjMap(classes, FinalClassOf(levels, le));
    outs := Sort(mapped, ByName(le, ClassName));
  }

  /** The bundle the finalising pass stamps on one source. */
  method FinalBundle(lk: Lookups, levels: map<string, int>, input: Input) returns (b: Bundle)
    ensures b == Finalised(lk, levels, input)
  {
    var classes: Option<seq<ClassOut>> := None;
    if input.classes != [] {
      var outs := FinaliseClasses(levels, lk.localeLe, input.classes);
      classes := Some(outs);
    }
    var monsters := if input.monsters.Some? && input.monsters.value != [] then input.monsters else None;
    var spells := if input.spells.Some? && input.spells.value != [] then input.spells else None;
    b := Bundle(input.name, input.dependencies, Version, classes, monsters, spells);
  }

  /**
   * The converter's shared table of source records, keyed by source key, with the order of its
   * keys: the order in which `Object.values` visits the records.
   */
  class Converter {
    const order: seq<string>
    var inputs: map<string, Input>

    constructor(order: seq<string>, inputs: map<string, Input>)
      ensures this.order == order && this.inputs == inputs
    {
      this.order := order;
      this.inputs := inputs;
    }

    /** `spell.classes.fromClassList.forEach(...)`: the spell's name pushed onto each listing class. */
    method IndexClassList(ctx: Context, dataKey: string, spell: Spell.SpellIn)
      modifies this
      ensures inputs == ClassListFold(ctx, old(inputs), dataKey, spell, spell.fromClassList)
    {
      var cs := spell.fromClassList;
      for i := 0 to |cs|
        invariant inputs == ClassListFold(ctx, old(inputs), dataKey, spell, cs[..i])
      {
        assert cs[..i + 1][..i] == cs[..i];
        IndexClass(ctx, dataKey, spell, cs[i]);
      }
      assert cs[..|cs|] == cs;
    }

    /** One listing class: the spell's name pushed onto its spell list, unless the SRD already lists it. */
    method IndexClass(ctx: Context, dataKey: string, spell: Spell.SpellIn, clazz: Spell.ClassRef)
      modifies this
      ensures inputs == ClassListed(ctx, old(inputs), dataKey, spell, clazz)
    {
      if !(InSrd(ctx, spell.name) && clazz.source == Phb) {
        var nameToAdd := NameToAdd(ctx, spell.name);
        var target := if clazz.source == Phb then dataKey else clazz.source;
        if target in inputs {
          var entry := Lookup(inputs[target].classes, clazz.name).GetOr(ClassEntry([], []));
          inputs := inputs[target := inputs[target].(classes := Put(inputs[target].classes, clazz.name, entry.(spells := entry.spells + [nameToAdd])))];
        }
      }
    }

    /** `(spell.classes.fromSubclass || []).forEach(...)`: the spell's name pushed onto each listing archetype. */
    method IndexSubclasses(ctx: Context, dataKey: string, spell: Spell.SpellIn)
      modifies this
      ensures inputs == SubclassFold(ctx, old(inputs), dataKey, spell, spell.fromSubclass.GetOr([]))
    {
      var subs := spell.fromSubclass.GetOr([]);
      for i := 0 to |subs|
        invariant inputs == SubclassFold(ctx, old(inputs), dataKey, spell, subs[..i])
      {
        assert subs[..i + 1][..i] == subs[..i];
        IndexSubclass(ctx, dataKey, spell, subs[i]);
      }
      assert subs[..|subs|] == subs;
    }

    /** One listing subclass: the spell's name pushed onto its archetype, unless the subclass is skipped. */
    method IndexSubclass(ctx: Context, dataKey: string, spell: Spell.SpellIn, sub: Spell.SubclassRef)
      modifies this
      ensures inputs == SubclassListed(ctx, old(inputs), dataKey, spell, sub)
    {
      var target := if sub.subclassSource == Phb then dataKey else sub.subclassSource;
      if sub.subclassName !in SkippedSubclasses && sub.classSource in inputs && target in inputs {
        var entry := Lookup(inputs[target].classes, sub.className).GetOr(ClassEntry([], []));
        var archetypes := AddToArchetype(entry.archetypes, ArchetypeOf(sub), spell.name);
        inputs := inputs[target := inputs[target].(classes := Put(inputs[target].classes, sub.className, entry.(archetypes := archetypes)))];
      }
    }

    /** `data.monsters = data.monsterInput.map(...).filter(...).sort(...)`. */
    method ConvertMonsters(ctx: Context, key: string) returns (error: Option<string>)
      requires key in inputs
      modifies this
      ensures var r := MonstersOf(ctx, old(inputs)[key]);
        if r.Err? then error == Some(r.message) && inputs == old(inputs)
        else error.None? && inputs == old(inputs)[key := old(inputs)[key].(monsters := r.value)]
    {
      var data := inputs[key];
      if data.monsterInput.None? {
        assert inputs == inputs[key := data.(monsters := data.monsters)];
        return None;
      }
      var ms := data.monsterInput.value;
      var results: seq<Option<MonsterResult>> := [];
      for i := 0 to |ms|
        invariant inputs == old(inputs)
        invariant MapResult(MonsterConversion(ctx, data.name), ms[..i]) == Ok(results)
      {
        var m := ms[i];
        MapResultStep(MonsterConversion(ctx, data.name), ms, i);
        var converted := ctx.processMonster(m);
        if converted.Err? {
          assert MonsterConversion(ctx, data.name)(m).Err?;
          return Some("Error with monster " + m.name + " in file " + data.name + ": " + converted.message);
        }
        var one := if m.name in ctx.srdMonsters then Pruned(converted.value.name, converted.value.lair) else Some(FullMonster(converted.value));
        results := results + [one];
      }
      assert ms[..|ms|] == ms;
      var sorted := Sort(Present(results), ByName(ctx.lk.localeLe, MonsterName));
      inputs := inputs[key := data.(monsters := Some(sorted))];
      return None;
    }

    /**
     * `data.spells = data.spellInput.map(...).filter(...).sort(...)`, with the level table threaded
     * through; the level is recorded under the name the class lists receive as well.
     */
    method ConvertSpells(ctx: Context, key: string, levels0: map<string, int>) returns (levels: map<string, int>, error: Option<string>)
      requires key in inputs
      modifies this
      ensures Outcome(Pass(inputs, levels), error) == SpellsDone(ctx, Pass(old(inputs), levels0), key)
    {
      levels := levels0;
      var data := inputs[key];
      if data.spellInput.None? {
        return levels, None;
      }
      var spells := data.spellInput.value;
      ghost var p0 := Pass(inputs, levels0);
      var results: seq<Option<SpellResult>> := [];
      for i := 0 to |spells|
        invariant inputs.Keys == p0.inputs.Keys
        invariant SpellsFold(ctx, p0, key, data.name, spells[..i]) == SpellsRun(Pass(inputs, levels), Ok(results))
      {
        var one;
        levels, one := ConvertOneSpell(ctx, key, data.name, spells[i], levels);
        SpellsFoldStep(ctx, p0, key, data.name, spells, i);
        if one.Err? {
          SpellsFoldStops(ctx, p0, key, data.name, spells, i + 1);
          return levels, Some(one.message);
        }
        results := results + [one.value];
      }
      assert spells[..|spells|] == spells;
      var sorted := Sort(Present(results), ByName(ctx.lk.localeLe, SpellName));
      inputs := inputs[key := inputs[key].(spells := Some(sorted))];
      error := None;
    }

    /** The callback of `spellInput.map` for one spell. */
    method ConvertOneSpell(ctx: Context, key: string, file: string, spell: Spell.SpellIn, levels0: map<string, int>)
      returns (levels: map<string, int>, one: Result<Option<SpellResult>>)
      modifies this
      ensures Pass(inputs, levels) == SpellIndexed(ctx, Pass(old(inputs), levels0), key, spell)
      ensures one == SpellResultOf(ctx, file, spell)
    {
      levels := ctx.recordLevel(levels0, spell);
      IndexClassList(ctx, key, spell);
      IndexSubclasses(ctx, key, spell);
      if spell.name in ctx.srdSpells {
        one := Ok(None);
      } else if MonsterParts.Truthy(Rename(ctx, spell.name)) {
        one := Ok(Some(RenamedSpell(Rename(ctx, spell.name).value, spell.name)));
      } else {
        var converted := ctx.processSpell(spell, Lookup(ctx.additionalSpellData, spell.name));
        if converted.Err? {
          one := Err("Error with spell " + spell.name + " in file " + file + ":" + converted.message);
        } else {
          one := Ok(Some(FullSpell(converted.value)));
        }
      }
    }

    /** One element of `toProcess.forEach` in the collecting pass: monsters, then spells. */
    method ConvertInput(ctx: Context, key: string, levels0: map<string, int>) returns (levels: map<string, int>, error: Option<string>)
      requires key in inputs
      modifies this
      ensures Outcome(Pass(inputs, levels), error) == InputConverted(ctx, Pass(old(inputs), levels0), key)
    {
      error := ConvertMonsters(ctx, key);
      if error.Some? {
        return levels0, error;
      }
      levels, error := ConvertSpells(ctx, key, levels0);
    }

    /** One element of `toProcess.forEach` in the finalising pass: `input.converted = {...}`. */
    method FinaliseInput(lk: Lookups, levels: map<string, int>, key: string)
      requires key in inputs
      modifies this
      ensures inputs == old(inputs)[key := old(inputs)[key].(converted := Some(Finalised(lk, levels, old(inputs)[key])))]
    {
      var input := inputs[key];
      var bundle := FinalBundle(lk, levels, input);
      inputs := inputs[key := input.(converted := Some(bundle))];
    }

    /** The collecting pass over `keys`, up to the first throw. */
    method Collect(ctx: Context, keys: seq<string>) returns (levels: map<string, int>, error: Option<string>)
      requires forall k :: k in keys ==> k in inputs
      modifies this
      ensures Outcome(Pass(inputs, levels), error) == CollectAll(ctx, Pass(old(inputs), map[]), keys)
    {
      ghost var start := inputs;
      levels := map[];
      for i := 0 to |keys|
        invariant inputs.Keys == start.Keys
        invariant CollectAll(ctx, Pass(start, map[]), keys[..i]) == Outcome(Pass(inputs, levels), None)
      {
        assert keys[..i + 1][..i] == keys[..i];
        levels, error := ConvertInput(ctx, keys[i], levels);
        if error.Some? {
          CollectAllStops(ctx, Pass(start, map[]), keys, i + 1);
          return;
        }
      }
      assert keys[..|keys|] == keys;
      error := None;
    }

    /** The finalising pass over `keys`. */
    method FinaliseKeys(lk: Lookups, levels: map<string, int>, keys: seq<string>)
      requires forall k :: k in keys ==> k in inputs
      modifies this
      ensures inputs == FinaliseAll(lk, levels, old(inputs), keys)
    {
      ghost var collected := inputs;
      for i := 0 to |keys|
        invariant inputs == FinaliseAll(lk, levels, collected, keys[..i])
      {
        assert keys[..i + 1][..i] == keys[..i];
        FinaliseInput(lk, levels, keys[i]);
      }
      assert keys[..|keys|] == keys;
    }

    /**
     * `convertData`: convert every pending source, indexing spells into the class tables, then
     * stamp each pending source's bundle; a throw ends the pass with the tables as they stand.
     */
    method ConvertData(ctx: Context) returns (error: Option<string>)
      modifies this
      ensures var r := ConvertAll(ctx, old(inputs), order);
        inputs == r.pass.inputs && error == r.error
    {
      var keys := ToProcess(order, inputs);
      ToProcessInInputs(order, inputs);
      var levels;
      levels, error := Collect(ctx, keys);
      if error.None? {
        FinaliseKeys(ctx.lk, levels, keys);
      }
    }
  }
}
