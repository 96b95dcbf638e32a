/**
 * `processMonster`: one 5etools monster record becomes one Shaped monster record. The output is
 * filled field by field, and the traits, actions and reactions are pushed onto three lists in
 * turn: the statblock sections, then the spellcasting traits, then the variants.
 */
module Monster {
  import opened Wrappers
  import opened Text
  import opened Collections
  import opened Markup
  import opened Grammars
  import opened Traits
  import opened External
  import opened Statblock
  import opened Spellcasting
  import opened MonsterParts

  /** The `cr` field: a rating, or an object whose `cr` holds it. */
  datatype Cr = CrText(s: string) | CrRecord(cr: Option<string>)

  /** The six ability scores, as the record gives them. */
  datatype Abilities = Abilities(str: int, dex: int, con: int, intelligence: int, wis: int, cha: int)

  /** The fields of a monster record that the conversion reads. */
  datatype MonsterIn = MonsterIn(
    name: string,
    size: Raw,
    kind: Raw,
    alignment: Raw,
    ac: seq<AcEntry>,
    hp: Hp,
    speed: Raw,
    abilities: Abilities,
    save: Option<seq<(string, string)>>,
    skill: Option<Skills>,
    vulnerable: Option<Raw>,
    resist: Option<Raw>,
    immune: Option<Raw>,
    conditionImmune: Option<Raw>,
    senses: Option<Raw>,
    languages: Option<Raw>,
    cr: Cr,
    traits: Option<seq<Trait>>,
    spellcasting: Option<seq<Spellcasting>>,
    action: Option<seq<Trait>>,
    reaction: Option<seq<Trait>>,
    variant: Option<seq<Variant>>,
    legendary: Option<seq<LegendaryIn>>,
    legendaryActions: Option<int>,
    legendaryGroup: Option<string>,
    environment: Option<seq<string>>
  )

  /** The Shaped monster record; a field left undefined is `None`. */
  datatype MonsterOut = MonsterOut(
    name: string,
    size: string,
    kind: string,
    alignment: string,
    ac: string,
    hp: HpValue,
    speed: string,
    abilities: Abilities,
    savingThrows: Option<string>,
    skills: Option<string>,
    damageVulnerabilities: Option<string>,
    damageResistances: Option<string>,
    damageImmunities: Option<string>,
    conditionImmunities: Option<string>,
    senses: Option<Raw>,
    languages: Option<Raw>,
    challenge: Rating,
    traits: Option<seq<Feature>>,
    actions: Option<seq<Feature>>,
    reactions: Option<seq<Feature>>,
    legendaryPoints: Option<int>,
    legendaryActions: Option<seq<LegendaryAction>>,
    lair: Lair,
    environments: Option<seq<string>>
  )

  /** The type text with its first character upper-cased when it is a lower-case ASCII letter. */
  function CapitaliseFirst(lk: Lookups, s: string): (r: string)
    ensures (s == [] || !('a' <= s[0] <= 'z')) ==> r == s
    ensures s != [] && 'a' <= s[0] <= 'z' ==> r == lk.upperChar(s[0]) + s[1..]
  {
    if s != [] && 'a' <= s[0] <= 'z' then lk.upperChar(s[0]) + s[1..] else s
  }

  /** `processChallenge(monster.cr.cr || monster.cr)`: an object without a rating cannot be matched. */
  function ChallengeOf(cr: Cr): Result<Rating> {
    match cr
    case CrText(s) => ProcessChallenge(s)
    case CrRecord(inner) =>
      if Truthy(inner) then ProcessChallenge(inner.value) else Err("TypeError: cr.match is not a function")
  }

  function Described(f: Raw -> string, field: Option<Raw>): Option<string> {
    if field.Some? then Some(f(field.value)) else None
  }

  /** `monster.trait` once `processSkills` has run. */
  function TraitsIn(lk: Lookups, m: MonsterIn): Option<seq<Trait>> {
    if m.skill.Some? then TraitsAfterSkills(lk, m.name, m.skill.value, m.traits) else m.traits
  }

  /** A statblock section, when the record has it. */
  function SectionOf(section: Option<seq<Trait>>): Result<seq<Feature>> {
    if section.Some? then ProcessStatblockSection(section.value) else Ok([])
  }

  function SpellcastingTraitOf(lk: Lookups): Spellcasting -> Result<Feature> {
    sc => SpellcastingTrait(lk, sc)
  }

  /** One trait per spellcasting block, in order. */
  function SpellcastingTraits(lk: Lookups, scs: Option<seq<Spellcasting>>): Result<seq<Feature>> {
    if scs.Some? then MapResult(SpellcastingTraitOf(lk), scs.value) else Ok([])
  }

  const ShadowMastiff := "Shadow Mastiff"

  /** The variant abilities; the Shadow Mastiff's variant is skipped. */
  function VariantsOf(m: MonsterIn): Result<seq<Placed>> {
    if m.variant.Some? && m.name != ShadowMastiff then VariantsPlaced(VariantPlacing, m.variant.value) else Ok([])
  }

  datatype Sections = Sections(traits: seq<Feature>, actions: seq<Feature>, reactions: seq<Feature>)

  /**
   * The three lists: the traits (statblock, then spellcasting, then variant traits), the actions
   * (statblock, then variant actions) and the reactions.
   */
  function MonsterSections(lk: Lookups, m: MonsterIn): Result<Sections> {
    var traitFs :- SectionOf(TraitsIn(lk, m));
    var spellFs :- SpellcastingTraits(lk, m.spellcasting);
    var actionFs :- SectionOf(m.action);
    var reactionFs :- SectionOf(m.reaction);
    var placed :- VariantsOf(m);
    Ok(Sections(traitFs + spellFs + PlacedTraits(placed), actionFs + PlacedActions(placed), reactionFs))
  }

  /** A list is set on the output only when it is not empty. */
  function NonEmpty<T>(xs: seq<T>): (r: Option<seq<T>>)
    ensures r.Some? <==> xs != []
    ensures r.Some? ==> r.value == xs
  {
    if xs == [] then None else Some(xs)
  }

  /** What `processMonster` returns or throws. */
  function ConvertMonster(lk: Lookups, m: MonsterIn, groups: seq<(string, LegendaryGroup)>): (r: Result<MonsterOut>)
    ensures r.Ok? ==> r.value.name == m.name && r.value.abilities == m.abilities
    ensures r.Ok? ==> r.value.traits.Some? ==> r.value.traits.value != []
    ensures r.Ok? ==> r.value.actions.Some? ==> r.value.actions.value != []
    ensures r.Ok? ==> r.value.reactions.Some? ==> r.value.reactions.value != []
    ensures r.Ok? ==> (r.value.legendaryPoints.Some? <==> m.legendary.Some?)
    ensures r.Ok? && m.legendary.Some? ==> r.value.legendaryPoints.value == LegendaryPoints(m.legendaryActions)
    ensures r.Ok? ==> (r.value.skills.Some? <==> m.skill.Some?) && (r.value.savingThrows.Some? <==> m.save.Some?)
  {
    var challenge :- ChallengeOf(m.cr);
    var sections :- MonsterSections(lk, m);
    var lair :- ProcessLair(groups, m.legendaryGroup);
    Ok(MonsterOut(
      m.name,
      lk.sizeText(m.size),
      CapitaliseFirst(lk, lk.typeText(m.kind)),
      lk.lowerCase(lk.alignmentText(m.alignment)),
      ProcessAC(m.ac),
      ProcessHP(m.hp),
      lk.speedText(m.speed),
      m.abilities,
      if m.save.Some? then Some(SavingThrows(lk, m.save.value)) else None,
      if m.skill.Some? then Some(SkillsText(lk, m.skill.value)) else None,
      Described(lk.immResText, m.vulnerable),
      Described(lk.immResText, m.resist),
      Described(lk.immResText, m.immune),
      Described(lk.condImmText, m.conditionImmune),
      m.senses,
      m.languages,
      challenge,
      NonEmpty(sections.traits),
      NonEmpty(sections.actions),
      NonEmpty(sections.reactions),
      if m.legendary.Some? then Some(LegendaryPoints(m.legendaryActions)) else None,
      if m.legendary.Some? then Some(LegendaryActions(m.legendary.value)) else None,
      lair,
      Environments(lk, m.environment)))
  }

  // ---------------------------------------------------------------------------------------------
  // Properties

  /** A challenge rating that cannot be read fails the conversion with its own message. */
  lemma ChallengeFailsMonster(lk: Lookups, m: MonsterIn, groups: seq<(string, LegendaryGroup)>)
    ensures ChallengeOf(m.cr).Err? ==> ConvertMonster(lk, m, groups).Err? && ConvertMonster(lk, m, groups).message == ChallengeOf(m.cr).message
    ensures ConvertMonster(lk, m, groups).Ok? <==>
      ChallengeOf(m.cr).Ok? && MonsterSections(lk, m).Ok? && ProcessLair(groups, m.legendaryGroup).Ok?
  {
  }

  /** The Shadow Mastiff converts as if it had no variants. */
  lemma ShadowMastiffIgnoresVariants(lk: Lookups, m: MonsterIn, groups: seq<(string, LegendaryGroup)>)
    requires m.name == ShadowMastiff
    ensures ConvertMonster(lk, m, groups) == ConvertMonster(lk, m.(variant := None), groups)
  {
    assert VariantsOf(m) == VariantsOf(m.(variant := None));
    assert TraitsIn(lk, m) == TraitsIn(lk, m.(variant := None));
    assert MonsterSections(lk, m) == MonsterSections(lk, m.(variant := None));
  }

  /**
   * Every feature is kept: the traits and actions together hold the statblock traits, the
   * spellcasting traits, the statblock actions and every variant ability, each in one list.
   */
  lemma SectionsCount(lk: Lookups, m: MonsterIn)
    requires MonsterSections(lk, m).Ok?
    ensures var s := MonsterSections(lk, m).value;
      |s.traits| + |s.actions| == |SectionOf(TraitsIn(lk, m)).value| + |SpellcastingTraits(lk, m.spellcasting).value|
        + |SectionOf(m.action).value| + |VariantsOf(m).value|
    ensures var s := MonsterSections(lk, m).value;
      SectionOf(TraitsIn(lk, m)).value + SpellcastingTraits(lk, m.spellcasting).value <= s.traits
      && SectionOf(m.action).value <= s.actions
  {
    PlacedPartition(VariantsOf(m).value);
  }

  /** One spellcasting trait per block, each named after its block. */
  lemma SpellcastingTraitsNamed(lk: Lookups, scs: seq<Spellcasting>, i: nat)
    requires SpellcastingTraits(lk, Some(scs)).Ok? && i < |scs|
    ensures |SpellcastingTraits(lk, Some(scs)).value| == |scs|
    ensures SpellcastingTraits(lk, Some(scs)).value[i].name == MakeTraitAction(scs[i].name).name
  {
    MapResultAt(SpellcastingTraitOf(lk), scs, i);
  }

  /**
   * A monster with `skill.other` gets, after its own traits' features, an "Additional Skill
   * Proficiencies" trait naming the monster and listing the choices.
   */
  lemma AdditionalSkillsLast(lk: Lookups, m: MonsterIn)
    requires m.skill.Some? && m.skill.value.other.Some?
    requires SectionOf(m.traits).Ok?
    ensures var choices := m.skill.value.other.value;
      SectionOf(TraitsIn(lk, m)).Ok?
      && SectionOf(TraitsIn(lk, m)).value == SectionOf(m.traits).value
           + [Feature(AdditionalSkillsName,
                      FixLinks("The " + m.name + " also has one of the following skill proficiencies: " + Join(ObjMap(choices, PhraseOf(lk)), ", ")),
                      None)]
  {
    var choices := m.skill.value.other.value;
    var extra := AdditionalSkills(lk, m.name, choices);
    var own := m.traits.GetOr([]);
    assert TraitsIn(lk, m).value == own + [extra];
    AdditionalSkillsFeatures(lk, m.name, choices);
    SectionOne(extra);
    SectionAppend(own, [extra]);
  }

  lemma AdditionalSkillsFeatures(lk: Lookups, name: string, choices: seq<(string, string)>)
    ensures var t := AdditionalSkills(lk, name, choices);
      TraitFeatures(t) == Ok([Feature(AdditionalSkillsName, FixLinks("The " + name + " also has one of the following skill proficiencies: " + Join(ObjMap(choices, PhraseOf(lk)), ", ")), None)])
  {
    assert '(' !in AdditionalSkillsName && !IsSpecial(AdditionalSkillsName);
    OneLineTrait(AdditionalSkillsName, "The " + name + " also has one of the following skill proficiencies: " + Join(ObjMap(choices, PhraseOf(lk)), ", "));
  }

  /** A plain-named trait of one string is one feature holding that string, normalised. */
  lemma OneLineTrait(name: string, line: string)
    requires '(' !in name && !IsSpecial(name)
    ensures TraitFeatures(Trait(name, [Text(line)])) == Ok([Feature(name, FixLinks(line), None)])
  {
    var t := Trait(name, [Text(line)]);
    MakeTraitActionPlain(name);
    TraitFeaturesOrdinary(t);
    assert TextLines(t.entries) == [FixLinks(line)] by {
      assert t.entries[1..] == [];
    }
    assert NamedItems(t.entries) == [] by {
      assert t.entries[1..] == [];
    }
    assert Join([FixLinks(line)], "\n") == FixLinks(line);
    assert ItemFeatures([]) == [];
    assert MakeTraitAction(t.name).name == name;
    assert TraitFeatures(t).value == [Feature(name, FixLinks(line), None)];
  }

  // ---------------------------------------------------------------------------------------------
  // The conversion, step by step

  /** A list of results appended to what is already there, or the error that stopped it. */
  function AppendedTo<T>(pre: seq<T>, r: Result<seq<T>>): Result<seq<T>> {
    if r.Ok? then Ok(pre + r.value) else Err(r.message)
  }

  /** Traits and actions after the variant abilities `r` have been pushed, or the error that stopped them. */
  function Applied(traits: seq<Feature>, actions: seq<Feature>, r: Result<seq<Placed>>): Result<(seq<Feature>, seq<Feature>)> {
    if r.Ok? then Ok((traits + PlacedTraits(r.value), actions + PlacedActions(r.value))) else Err(r.message)
  }

  /** The abilities placed so far, followed by those still to come. */
  function Then(done: seq<Placed>, r: Result<seq<Placed>>): Result<seq<Placed>> {
    if r.Ok? then Ok(done + r.value) else r
  }

  /** The `forEach` over the spellcasting blocks, pushing one trait per block. */
  method AddSpellcasting(lk: Lookups, scs: seq<Spellcasting>, traits0: seq<Feature>) returns (r: Result<seq<Feature>>)
    ensures r == AppendedTo(traits0, MapResult(SpellcastingTraitOf(lk), scs))
  {
    var traits := traits0;
    var i := 0;
    while i < |scs|
      invariant 0 <= i <= |scs|
      invariant MapResult(SpellcastingTraitOf(lk), scs[..i]).Ok?
      invariant traits == traits0 + MapResult(SpellcastingTraitOf(lk), scs[..i]).value
    {
      var made := SpellcastingTraitOf(lk)(scs[i]);
      MapResultStep(SpellcastingTraitOf(lk), scs, i);
      if made.Err? {
        return Err(made.message);
      }
      traits := traits + [made.value];
      i := i + 1;
    }
    assert scs[..i] == scs;
    return Ok(traits);
  }

  /** `addVariant`: the ability goes onto the actions or the traits. */
  method PushVariant(pl: Placing, name: string, text: string, forceActions: bool, traits: seq<Feature>, actions: seq<Feature>)
    returns (traits': seq<Feature>, actions': seq<Feature>)
    ensures var p := pl.place(name, text, forceActions);
      traits' == traits + PlacedTraits([p]) && actions' == actions + PlacedActions([p])
  {
    var p := pl.place(name, text, forceActions);
    if p.asAction {
      traits', actions' := traits, actions + [p.feature];
    } else {
      traits', actions' := traits + [p.feature], actions;
    }
  }

  /** A string entry only sets whether the next abilities are forced among the actions. */
  lemma ThenText(pl: Placing, baseName: string, es: seq<VariantEntry>, i: nat, flag: bool, done: seq<Placed>)
    requires i < |es| && es[i].VText?
    ensures Then(done, CompoundPlaced(pl, baseName, es[i..], flag))
      == Then(done, CompoundPlaced(pl, baseName, es[i + 1..], AnnouncesActions(es[i].s)))
  {
    assert es[i..][0] == es[i] && es[i..][1..] == es[i + 1..];
  }

  /** An object entry is placed as one ability, or its text fails the variant. */
  lemma ThenObject(pl: Placing, baseName: string, es: seq<VariantEntry>, i: nat, flag: bool, done: seq<Placed>)
    requires i < |es| && es[i].VObject?
    ensures pl.show(es[i]).Err? ==>
      Then(done, CompoundPlaced(pl, baseName, es[i..], flag)) == Err(pl.show(es[i]).message)
    ensures pl.show(es[i]).Ok? ==>
      Then(done, CompoundPlaced(pl, baseName, es[i..], flag))
      == Then(done + [pl.place(if Truthy(es[i].name) then es[i].name.value else baseName, pl.show(es[i]).value, flag)],
              CompoundPlaced(pl, baseName, es[i + 1..], flag))
  {
    assert es[i..][0] == es[i] && es[i..][1..] == es[i + 1..];
    var rest := CompoundPlaced(pl, baseName, es[i + 1..], flag);
    if pl.show(es[i]).Ok? && rest.Ok? {
      var p := pl.place(if Truthy(es[i].name) then es[i].name.value else baseName, pl.show(es[i]).value, flag);
      assert done + ([p] + rest.value) == (done + [p]) + rest.value;
    }
  }

  /** Pushing one more placed ability extends what the placed abilities so far pushed. */
  lemma PlacedExtend(traits0: seq<Feature>, actions0: seq<Feature>, done: seq<Placed>, more: seq<Placed>)
    ensures traits0 + PlacedTraits(done) + PlacedTraits(more) == traits0 + PlacedTraits(done + more)
    ensures actions0 + PlacedActions(done) + PlacedActions(more) == actions0 + PlacedActions(done + more)
  {
    PlacedTraitsAppend(done, more);
    PlacedActionsAppend(done, more);
    Assoc(traits0, PlacedTraits(done), PlacedTraits(more));
    Assoc(actions0, PlacedActions(done), PlacedActions(more));
  }

  /** The `forEach` over the entries of a compound variant, remembering whether actions were announced. */
  method AddCompound(pl: Placing, baseName: string, es: seq<VariantEntry>, traits0: seq<Feature>, actions0: seq<Feature>)
    returns (r: Result<(seq<Feature>, seq<Feature>)>)
    ensures r == Applied(traits0, actions0, CompoundPlaced(pl, baseName, es, false))
  {
    var traits, actions := traits0, actions0;
    var explicitlyActions := false;
    ghost var done: seq<Placed> := [];
    var i := 0;
    assert es[0..] == es;
    assert CompoundPlaced(pl, baseName, es, false).Ok? ==>
      [] + CompoundPlaced(pl, baseName, es, false).value == CompoundPlaced(pl, baseName, es, false).value;
    while i < |es|
      invariant 0 <= i <= |es|
      invariant CompoundPlaced(pl, baseName, es, false) == Then(done, CompoundPlaced(pl, baseName, es[i..], explicitlyActions))
      invariant traits == traits0 + PlacedTraits(done) && actions == actions0 + PlacedActions(done)
    {
      var error;
      error, explicitlyActions, done, traits, actions :=
        AddCompoundEntry(pl, baseName, es, i, explicitlyActions, done, traits0, actions0, traits, actions);
      if error.Some? {
        return Err(error.value);
      }
      i := i + 1;
    }
    assert done + [] == done;
    r := Ok((traits, actions));
  }

  /** One entry of the compound `forEach`: a string sets the flag, an object pushes its ability or fails. */
  method AddCompoundEntry(pl: Placing, baseName: string, es: seq<VariantEntry>, i: nat, flag: bool, ghost done: seq<Placed>,
                          ghost traits0: seq<Feature>, ghost actions0: seq<Feature>, traits: seq<Feature>, actions: seq<Feature>)
    returns (error: Option<string>, flag': bool, ghost done': seq<Placed>, traits': seq<Feature>, actions': seq<Feature>)
    requires i < |es|
    requires traits == traits0 + PlacedTraits(done) && actions == actions0 + PlacedActions(done)
    ensures error.Some? ==> Then(done, CompoundPlaced(pl, baseName, es[i..], flag)) == Err(error.value)
    ensures error.None? ==>
      && Then(done, CompoundPlaced(pl, baseName, es[i..], flag)) == Then(done', CompoundPlaced(pl, baseName, es[i + 1..], flag'))
      && traits' == traits0 + PlacedTraits(done') && actions' == actions0 + PlacedActions(done')
  {
    error, flag', done', traits', actions' := None, flag, done, traits, actions;
    match es[i] {
      case VText(s) =>
        ThenText(pl, baseName, es, i, flag, done);
        flag' := AnnouncesActions(s);
      case VObject(_, name, _, _, _) =>
        ThenObject(pl, baseName, es, i, flag, done);
        var text := pl.show(es[i]);
        if text.Err? {
          return Some(text.message), flag, done, traits, actions;
        }
        var abilityName := if Truthy(name) then name.value else baseName;
        ghost var p := pl.place(abilityName, text.value, flag);
        traits', actions' := PushVariant(pl, abilityName, text.value, flag, traits, actions);
        PlacedExtend(traits0, actions0, done, [p]);
        done' := done + [p];
    }
  }

  /** What one variant pushes. */
  method AddOneVariant(pl: Placing, v: Variant, traits0: seq<Feature>, actions0: seq<Feature>) returns (r: Result<(seq<Feature>, seq<Feature>)>)
    ensures r == Applied(traits0, actions0, VariantPlaced(pl, v))
  {
    if Simple(v.entries) {
      var texts := MapResult(SimpleText, v.entries);
      if texts.Err? {
        return Err(texts.message);
      }
      var traits, actions := PushVariant(pl, v.name, Join(texts.value, "\n"), false, traits0, actions0);
      return Ok((traits, actions));
    }
    r := AddCompound(pl, v.name, v.entries, traits0, actions0);
  }

  /** One more variant pushed onto what the variants before it pushed. */
  lemma AppliedStep(pl: Placing, vs: seq<Variant>, i: nat, done: seq<Placed>, traits0: seq<Feature>, actions0: seq<Feature>)
    requires i < |vs| && VariantsPlaced(pl, vs[..i]) == Ok(done)
    ensures var one := VariantPlaced(pl, vs[i]);
      one.Err? ==> Applied(traits0, actions0, VariantsPlaced(pl, vs)) == Err(one.message)
    ensures var one := VariantPlaced(pl, vs[i]);
      one.Ok? ==>
        && VariantsPlaced(pl, vs[..i + 1]) == Ok(done + one.value)
        && Applied(traits0 + PlacedTraits(done), actions0 + PlacedActions(done), one)
           == Ok((traits0 + PlacedTraits(done + one.value), actions0 + PlacedActions(done + one.value)))
  {
    VariantsPlacedStep(pl, vs, i);
    var one := VariantPlaced(pl, vs[i]);
    if one.Ok? {
      PlacedExtend(traits0, actions0, done, one.value);
    }
  }

  /** The `forEach` over the variants. */
  method AddVariants(pl: Placing, vs: seq<Variant>, traits0: seq<Feature>, actions0: seq<Feature>) returns (r: Result<(seq<Feature>, seq<Feature>)>)
    ensures r == Applied(traits0, actions0, VariantsPlaced(pl, vs))
  {
    var traits, actions := traits0, actions0;
    var i := 0;
    ghost var done: seq<Placed> := [];
    VariantsPlacedNone(pl, vs);
    while i < |vs|
      invariant 0 <= i <= |vs|
      invariant VariantsPlaced(pl, vs[..i]) == Ok(done)
      invariant traits == traits0 + PlacedTraits(done) && actions == actions0 + PlacedActions(done)
    {
      var step := AddOneVariant(pl, vs[i], traits, actions);
      AppliedStep(pl, vs, i, done, traits0, actions0);
      if step.Err? {
        return Err(step.message);
      }
      traits, actions := step.value.0, step.value.1;
      done := done + VariantPlaced(pl, vs[i]).value;
      i := i + 1;
    }
    assert vs[..i] == vs;
    return Ok((traits, actions));
  }

  /** The traits, actions and reactions, pushed in the order `processMonster` pushes them. */
  method CollectSections(lk: Lookups, m: MonsterIn) returns (r: Result<Sections>)
    ensures r == MonsterSections(lk, m)
  {
    var traits: seq<Feature> := [];
    var actions: seq<Feature> := [];
    var reactions: seq<Feature> := [];
    var own := SectionOf(TraitsIn(lk, m));
    if own.Err? {
      return Err(own.message);
    }
    traits := traits + own.value;
    var spells := SpellcastingTraits(lk, m.spellcasting);
    if m.spellcasting.Some? {
      var withSpells := AddSpellcasting(lk, m.spellcasting.value, traits);
      if withSpells.Err? {
        return Err(withSpells.message);
      }
      traits := withSpells.value;
    } else {
      assert traits + [] == traits;
    }
    var acts := SectionOf(m.action);
    if acts.Err? {
      return Err(acts.message);
    }
    actions := actions + acts.value;
    var reacts := SectionOf(m.reaction);
    if reacts.Err? {
      return Err(reacts.message);
    }
    reactions := reactions + reacts.value;
    if m.variant.Some? && m.name != ShadowMastiff {
      var withVariants := AddVariants(VariantPlacing, m.variant.value, traits, actions);
      if withVariants.Err? {
        return Err(withVariants.message);
      }
      traits, actions := withVariants.value.0, withVariants.value.1;
    } else {
      assert PlacedTraits([]) == [] && PlacedActions([]) == [];
      assert traits + [] == traits && actions + [] == actions;
    }
    assert [] + own.value == own.value && [] + acts.value == acts.value && [] + reacts.value == reacts.value;
    return Ok(Sections(traits, actions, reactions));
  }

  /**
   * `processMonster`: the output fields in turn; the skills trait joins the traits before they are
   * processed, and the first error thrown ends the conversion.
   */
  method ProcessMonster(lk: Lookups, m: MonsterIn, groups: seq<(string, LegendaryGroup)>) returns (r: Result<MonsterOut>)
    ensures r == ConvertMonster(lk, m, groups)
  {
    var ac := ProcessAC(m.ac);
    var hp := ProcessHP(m.hp);
    var savingThrows := if m.save.Some? then Some(SavingThrows(lk, m.save.value)) else None;
    var skills := if m.skill.Some? then Some(SkillsText(lk, m.skill.value)) else None;
    var challenge := ChallengeOf(m.cr);
    if challenge.Err? {
      return Err(challenge.message);
    }
    var sections := CollectSections(lk, m);
    if sections.Err? {
      return Err(sections.message);
    }
    var legendaryPoints, legendaryActions := None, None;
    if m.legendary.Some? {
      legendaryPoints := Some(LegendaryPoints(m.legendaryActions));
      legendaryActions := Some(LegendaryActions(m.legendary.value));
    }
    var lair := ProcessLair(groups, m.legendaryGroup);
    if lair.Err? {
      return Err(lair.message);
    }
    r := Ok(MonsterOut(
      m.name,
      lk.sizeText(m.size),
      CapitaliseFirst(lk, lk.typeText(m.kind)),
      lk.lowerCase(lk.alignmentText(m.alignment)),
      ac,
      hp,
      lk.speedText(m.speed),
      m.abilities,
      savingThrows,
      skills,
      Described(lk.immResText, m.vulnerable),
      Described(lk.immResText, m.resist),
      Described(lk.immResText, m.immune),
      Described(lk.condImmText, m.conditionImmune),
      m.senses,
      m.languages,
      challenge.value,
      NonEmpty(sections.value.traits),
      NonEmpty(sections.value.actions),
      NonEmpty(sections.value.reactions),
      legendaryPoints,
      legendaryActions,
      lair.value,
      Environments(lk, m.environment)));
  }
}
