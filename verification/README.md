# Shaped converter model

The converter turns 5etools monster and spell data into the data files of the Shaped character
sheet for Roll20. This project is a Dafny model of that conversion core, with proofs about it.
The model covers:

- the inline-markup rewriting applied to every text (`fixLinks`) and the typographic-quote fix
  applied when the result is serialised;
- the small grammars the converter reads:
  - challenge ratings;
  - spell slot counts;
  - trait names with usage limits;
  - legendary action costs;
  - hit-point formulas;
  - damage and healing formulas;
- statblock sections, multi-part abilities and spellcasting blocks;
- `processMonster` and its helpers;
- `processSpell`, with its description, higher-level text and supplementary spell data;
- `convertData`, the aggregation pass. It converts every pending source, indexes each spell into
  the class and archetype lists of the sources that grant it, and then stamps each source's
  output bundle.

The code the converter calls but does not define is supplied by the caller as total functions, so
every property holds whatever they return. This covers the `Parser` lookups,
`toTitleCase`, the locale-dependent case mappings and `localeCompare` (module `External`).

JSON objects whose key order matters are modelled as key/value lists in `Object.keys` order.
A thrown error is a `Result` error carrying the message the source builds.

Most modules are pure:

- `Markup`, `Traits`, `Grammars`, `Statblock`, `Spellcasting`, `MonsterParts`, `SpellEntries`:
  functions plus lemmas.
- `Monster` and `Spell`: each pairs a specification function (`ConvertMonster`, `ConvertSpell`)
  with the step-by-step methods the source uses (`ProcessMonster`, `ProcessSpell`), and each
  method is proved equal to its function.
- `Aggregate`:
  - `Converter` is a class holding the table of sources. Its methods update that table in place,
    step by step as `convertData` does.
  - Each method is proved against a fold function (`CollectAll`, `FinaliseAll`, `ConvertAll`).
  - The pass calls the per-record converters, and records each spell's level, through its
    `Context`. `WiredContext` is the context `convertData` runs in. It binds the converters to
    `ConvertMonster` and `ConvertSpell`, and the level recording to `RecordLevelAsWritten`,
    which records a level under the spell's own name only. With that context the methods compute
    what the code computes.
  - The lemmas about a single record (`SrdMonsterPruned`, `SpellResultCases`) assume that binding.
    The pass's other properties hold for any converters.
  - The ordering guarantee of the output is proved about those functions, for the corrected level
    recording of Finding 2 (`CorrectedContext`). With the code's recording it does not hold.
  - The sorts run in place on arrays (`Sorting.SortInPlace`) and are proved equal to a stable
    insertion sort.

Three details of the code that the model follows:

- The subclass skip list has four names: Life, Devotion, Land and Fiend.
- A range cell of a spell table is joined by the six characters of an escape sequence, `\u2013`,
  rather than by an en dash (Finding 1 below). The spell tables of the model render it that way.
- `fixLinks` is idempotent on text without "{" (`Markup.FixLinksIdempotentWithoutBrace`), but not in
  general: a tag nested inside braces leaves a new tag behind
  (`Markup.FixLinksNestedTagNotIdempotent`).

## Model

| member | source | states |
|---|---|---|
| Collections.Flattener | js/makeshaped.js:907-914 | the result keeps what was already collected, in front of what the item adds |
| Collections.FlattenFromConcat | js/makeshaped.js:907-914 | reducing with `flattener` appends every item's elements in order, one level deep |
| Collections.FlattenItemsAppend | js/makeshaped.js:907-914 | flattening two lists is flattening each and concatenating |
| Collections.MapResultAt | js/makeshaped.js:222-250 | a `map` whose callback never throws holds, at each index, the callback's value for that element |
| Collections.MapResultFails | js/makeshaped.js:222-250 | a `map` fails exactly when the callback throws for some element, with the first such element's error |
| Collections.MapResultStep | js/makeshaped.js:222-250 | after a prefix that succeeded, the next element extends the result or ends the map with its error |
| Collections.IsEmptyIff | js/makeshaped.js:929-937 | `isEmpty` holds exactly for a missing value, an empty array or string, and an object without keys |
| Collections.ObjMapAt | js/makeshaped.js:939-943 | the i-th result is the callback applied to the i-th property's value and key |
| Text.ParseIntOfNatToString | js/makeshaped.js:176-183 | `parseInt` reads back a rendered natural number whatever non-digit text follows it |
| Text.ParseIntAnyRadixOfNatToString | js/makeshaped.js:690-691 | `parseInt` without a radix reads a rendered natural number in base 10, unless it is 0 followed by "x" or "X" |
| Text.ParseIntAnyRadixHex | js/makeshaped.js:690-691 | `parseInt` without a radix reads "0x" and a run of hexadecimal digits in base 16 |
| Text.ParseIntRadixDiffers | js/makeshaped.js:690-691 | on "0x" and a hexadecimal digit, `parseInt` without a radix reads base 16 while radix 10 reads 0 |
| Markup.GreedyEndIsLargest | js/makeshaped.js:188 | the greedy filter label takes the largest end that still leaves a non-empty run before a "}", and fails only when no end does |
| Markup.ReplaceAllCopies | js/makeshaped.js:187-195 | a global replacement copies a prefix in which no match starts and resumes after it |
| Markup.ReplaceAllWithoutMatch | js/makeshaped.js:187-195 | a global replacement that finds no match returns its input |
| Markup.MarkupNeedsBrace | js/makeshaped.js:188-191 | the four markup rewrites only match at a "{" |
| Markup.FixLinksWithoutMarkup | js/makeshaped.js:186-196 | on text without "{", `fixLinks` only spaces out dice modifiers |
| Markup.FixLinksPlain | js/makeshaped.js:186-196 | text with neither markup nor digits passes `fixLinks` unchanged |
| Markup.HitToken | js/makeshaped.js:189 | "{@hit N}" becomes "+N" |
| Markup.FilterToken | js/makeshaped.js:188 | "{@filter x\|…}" becomes x, the text before the first "\|" |
| Markup.ChanceToken | js/makeshaped.js:190 | "{@chance N…}" with text after the digits becomes "N percent" |
| Markup.TagTokenThree | js/makeshaped.js:191-194 | a tag whose body has three parts becomes its third part |
| Markup.TagTokenTwo | js/makeshaped.js:191-194 | a tag whose body has two parts becomes its first part |
| Markup.TagTokenOne | js/makeshaped.js:191-194 | a tag whose body has one part becomes that part |
| Markup.DiceSpacingToken | js/makeshaped.js:195 | "dN", a sign and a digit get spaces around the sign |
| Markup.FilterPassSkipsHit | js/makeshaped.js:188-189 | the filter rewrite leaves a to-hit token alone |
| Markup.HitPassReplacesHit | js/makeshaped.js:189 | the to-hit rewrite replaces a to-hit token followed by markup-free text |
| Markup.FixLinksHit | js/makeshaped.js:186-196 | `fixLinks` turns a to-hit token between markup-free texts into "+N" and keeps the texts |
| Markup.DiceSpacingIdempotent | js/makeshaped.js:195 | a second dice-spacing rewrite leaves the first one's result unchanged |
| Markup.FixLinksIdempotentWithoutBrace | js/makeshaped.js:186-196 | on text without "{", applying `fixLinks` twice is applying it once |
| Markup.FixLinksLoneTag | js/makeshaped.js:186-196 | a lone one-part tag, not named like the filter, to-hit or chance tokens, whose body has no "d", becomes its body |
| Markup.FixLinksBracedTag | js/makeshaped.js:186-196 | a one-part tag wrapped in braces becomes its body wrapped in braces |
| Markup.FixLinksNestedTagNotIdempotent | js/makeshaped.js:186-196 | `fixLinks` is not idempotent: "{{@b @i x}}" becomes "{@i x}", and a second pass makes that "x" |
| Markup.DiceCountToken | js/makeshaped.js:668 | the first "NdM" loses its dice count and becomes "dM" |
| Markup.QuotePassPointwise | js/makeshaped.js:733-736 | each quote rewrite keeps the length and changes only straight quotes, each into a typographic quote |
| Markup.ApostrophesReplaced | js/makeshaped.js:734 | no straight apostrophe survives the first quote rewrite |
| Markup.QuoteImagesKeepNoApostrophe | js/makeshaped.js:734-736 | the later quote rewrites never bring a straight apostrophe back |
| Markup.SerialiseTextShape | js/makeshaped.js:731-736 | `serialiseFixer` on a string keeps its length, leaves no straight apostrophe, and changes only straight quotes, into typographic ones |
| Traits.SplitNameOf | js/makeshaped.js:199 | a name with a parenthesised part splits into the text before the "(" and the part |
| Traits.SplitNamePlain | js/makeshaped.js:199 | a name without "(" is all base, with no parenthesised part |
| Traits.LimitLenAcceptable | js/makeshaped.js:201 | a usage limit that is found is non-empty, lies inside the text and leaves an acceptable remainder |
| Traits.PrefixedFromSound | js/makeshaped.js:201 | the backtracking search for "condition, limit" returns a ", " position and a limit that fits there |
| Traits.RechargeReassembles | js/makeshaped.js:201 | the recharge groups put back together give the parenthesised text; the limit is non-empty and the condition has no line break |
| Traits.RechargeWithWhole | js/makeshaped.js:201 | a comma-free text the limit pattern takes whole is the limit, with neither condition nor remainder |
| Traits.RechargeWithCondition | js/makeshaped.js:201 | "condition, limit": the condition is everything before the last ", " |
| Traits.RechargeOnLen | js/makeshaped.js:201 | a written-out "Recharge …" limit is found whole |
| Traits.RechargeOfLimit | js/makeshaped.js:201 | every written-out limit (N/period, N minutes/period, Recharge N[–6], Recharges text) is read back alone |
| Traits.RechargeOfConditionAndLimit | js/makeshaped.js:201 | a condition followed by a written-out limit is read back as that condition and that limit |
| Traits.MakeTraitActionPlain | js/makeshaped.js:198-219 | a name without parentheses is kept whole, with no recharge |
| Traits.MakeTraitActionLimit | js/makeshaped.js:198-219 | "Breath Weapon (Recharge 5–6)": the limit leaves the trimmed name and becomes the recharge |
| Traits.MakeTraitActionConditional | js/makeshaped.js:198-219 | a condition that comes with the limit stays in the name, in new parentheses |
| Traits.MakeTraitActionSound | js/makeshaped.js:198-219 | whenever a recharge is reported, it is the limit group of the name's parenthesised text |
| Traits.CostAtShape | js/makeshaped.js:463 | a legendary cost group is one digit or a digit range, and a note is never empty |
| Traits.CostValue | js/makeshaped.js:467 | `parseInt` reads only the first digit of a cost group, so a cost is at most 9 |
| Traits.LegendaryPartsCost | js/makeshaped.js:463-467 | a cost that is found is one digit or a digit range and parses to its first digit |
| Traits.LegendaryPartsWithoutParen | js/makeshaped.js:463-464 | a legendary action name without "(" has no cost |
| Traits.LegendaryPartsOf | js/makeshaped.js:463-467 | "Wing Attack (Costs 2 Actions)" reads back as the name, the cost and the note |
| Grammars.ChallengeFails | js/makeshaped.js:172-179 | a rating fails exactly when the text is not "Unknown" and has no digit, with the message "Bad CR …" |
| Grammars.ChallengeWhole | js/makeshaped.js:172-184 | a whole number after digit-free text is the rating |
| Grammars.ChallengeFraction | js/makeshaped.js:176-182 | "a/b", with or without one space on either side of "/", rates a over b |
| Grammars.SlotStringOne | js/makeshaped.js:161-170 | one slot reads back as 1 and is not written in the plural |
| Grammars.SlotStringMany | js/makeshaped.js:161-170 | any count n other than one is written "n slots" |
| Grammars.SlotStringCount | js/makeshaped.js:161-170 | a slot count is read back from its text, and the plural is used for every count but one |
| Grammars.PadIntegerReadsBack | js/makeshaped.js:500-505 | a padded number has at least two characters and `parseInt` reads it back |
| Grammars.SplitDiceBonusSound | js/makeshaped.js:673 | every split of a formula rebuilds it from dice, separator and bonus, each of the allowed form |
| Grammars.SplitDiceBonusComplete | js/makeshaped.js:673 | dice, a separator and a bonus split back into exactly those parts |
| Grammars.SplitBonusOnly | js/makeshaped.js:673 | a bonus alone splits as a bonus without dice |
| Grammars.SplitDiceOnly | js/makeshaped.js:673 | dice alone split as dice without a bonus |
| Grammars.HpSpecialOf | js/makeshaped.js:279 | a special hit-point line "N (AdB±C)…" has hit points "N (AdB±C)" |
| Sorting.InsertionSortPermutes | js/makeshaped.js:792 | the stable sort is a permutation of its input |
| Sorting.InsertionSortSorted | js/makeshaped.js:792 | with a total, transitive comparator the stable sort is sorted |
| Sorting.InsertionSortOfSorted | js/makeshaped.js:792 | a list already in order comes back unchanged |
| Sorting.SortInPlace | js/makeshaped.js:884 | the in-place sort leaves the array holding the stable sort of its old contents |
| Sorting.Sort | js/makeshaped.js:864 | sorting a copy in an array gives the stable sort |
| Statblock.StripDotOf | js/makeshaped.js:233 | "Bite." becomes "Bite", without a dot |
| Statblock.StripDotKeeps | js/makeshaped.js:233 | a name with a dot before its end, or no dot at its end, is kept |
| Statblock.StripDotIdempotent | js/makeshaped.js:233 | stripping the dot twice is stripping it once |
| Statblock.ExpandAllSplit | js/makeshaped.js:228-249 | the strings of the flattened expansion are the text lines in entry order, and its objects the named items in entry and item order |
| Statblock.SectionAppend | js/makeshaped.js:221-251 | a section split in two gives the features of the first part, then those of the second |
| Statblock.SectionFails | js/makeshaped.js:221-251 | a section fails exactly when one of its traits fails, with the first such trait's error |
| Statblock.TraitFeaturesOrdinary | js/makeshaped.js:223-249 | an ordinary trait gives its feature, text lines joined by line breaks, then its named items |
| Statblock.TraitFeaturesHead | js/makeshaped.js:222-249 | every trait gives at least its own feature, first |
| Statblock.PartHeadSound | js/makeshaped.js:256 | a part's name is capitalised words, and the part is its numbering, name, one character, a space and its text |
| Statblock.PartHeadOf | js/makeshaped.js:256 | "Fire Ray. The dragon …" reads back as the name "Fire Ray" and the text after ". " |
| Statblock.PartHeadNumbered | js/makeshaped.js:256 | a numbered part "2. Fear Ray. …" reads the same with the numbering dropped |
| Statblock.SpecialFoldNames | js/makeshaped.js:255-266 | each part whose head matches adds one feature named by that head, in order; every other part extends the feature before it |
| Statblock.SpecialListFails | js/makeshaped.js:253-267 | a multi-part ability fails exactly when it has no parts or a part is not a string |
| Statblock.ProcessSpecialList | js/makeshaped.js:253-267 | the step-by-step fold gives the features of `SpecialList` |
| Statblock.FoldParts | js/makeshaped.js:255-266 | the reduction over the later parts gives `SpecialFold` |
| Spellcasting.MakeSpellListEnds | js/makeshaped.js:106-108 | the list starts with the first spell and ends with the last, each normalised |
| Spellcasting.LevelLineAtCanonical | js/makeshaped.js:150-154 | a level key written as a number gives that level's line with its own slots and spells |
| Spellcasting.LeveledSpellsCanonical | js/makeshaped.js:149-155 | a table keyed by levels gives one line per level, in key order |
| Spellcasting.InnateIgnoresReserved | js/makeshaped.js:117-123 | a reserved key produces no lines wherever it stands |
| Spellcasting.InnateFails | js/makeshaped.js:116-147 | an unrecognised unreserved key fails the block; only an unreserved key can fail it |
| Spellcasting.InnateFailsAt | js/makeshaped.js:116-147 | an unreserved key whose value cannot be rendered fails the whole block |
| Spellcasting.InnateFailsOnly | js/makeshaped.js:116-147 | a failing block fails at some unreserved key whose value cannot be rendered |
| Spellcasting.InnateUnrecognised | js/makeshaped.js:142-144 | the first unrecognised key is the one reported, "Unrecognised spellUseInfo …" |
| Spellcasting.GroupLineCounted | js/makeshaped.js:134-138 | a group whose key starts with a digit gives a line starting with that count and "/" |
| Spellcasting.GroupLineEach | js/makeshaped.js:137-138 | " each" follows the period exactly when the key ends in "e" and the group has more than one spell |
| Spellcasting.UsesLeCounted | js/makeshaped.js:139 | on lines that start with a count, the comparator orders by count, descending |
| Spellcasting.GroupSortedDescending | js/makeshaped.js:134-139 | a per-period group is a permutation of its lines in which the use counts never increase |
| Spellcasting.SpellcastingTraitText | js/makeshaped.js:377-389 | the trait is built exactly when its spell lines are; its text starts with the normalised header line and ends with the last footer line |
| MonsterParts.ProcessACJoins | js/makeshaped.js:290-314 | no entries give ""; without braced entries the pieces are joined with ", " |
| MonsterParts.ProcessACBraced | js/makeshaped.js:300-302 | a braced conditional entry is appended as " (ac condition)" without a comma |
| MonsterParts.ProcessACWithSources | js/makeshaped.js:304-307 | `[12, {ac: 15, from: ["shield"]}]` gives "12, 15 (shield)" |
| MonsterParts.ProcessHPSpecial | js/makeshaped.js:278-284 | a special text starting "N (AdB±C)" keeps exactly that start as the hit points |
| MonsterParts.ProcessHPFormula | js/makeshaped.js:286 | "2d8+2" is shown with spaces around its sign, after the average |
| MonsterParts.FormulaReplaced | js/makeshaped.js:286 | the first digit-sign-digit run of "<a>d<b><sign><c>" is the one at the end of the die size, so only that sign is spaced out |
| MonsterParts.SkillsListed | js/makeshaped.js:317-320 | each skill is listed once, in property order |
| MonsterParts.TraitsAfterSkills | js/makeshaped.js:322-330 | `other` skills append one "Additional Skill Proficiencies" trait after the existing traits; otherwise the traits are unchanged |
| MonsterParts.LegendaryNamelessDropped | js/makeshaped.js:458-475 | a nameless legendary entry contributes nothing wherever it stands |
| MonsterParts.LegendaryAllNamed | js/makeshaped.js:458-475 | with every entry named, there is one action per entry, in order |
| MonsterParts.LegendaryCost | js/makeshaped.js:463-467 | a cost in parentheses gives the trimmed name and that cost |
| MonsterParts.LegendaryPlain | js/makeshaped.js:468-472 | a name without parentheses is kept and costs 1 |
| MonsterParts.LairActionsOfTexts | js/makeshaped.js:481-482 | lair actions given as strings are each normalised, one per string, in order |
| MonsterParts.FirstItemsOf | js/makeshaped.js:484 | the items are found exactly when the first object entry has items, and are that object's items |
| MonsterParts.AddVariant | js/makeshaped.js:399-409 | a variant is named "Variant: …" and is an action exactly when it recharges outside a bonus action, is forced, or is an attack |
| MonsterParts.VariantsPlacedFailsEarly | js/makeshaped.js:420-441 | a failure among the first variants is the failure of them all |
| MonsterParts.VariantsPlacedStep | js/makeshaped.js:420-441 | variants are placed one after the other; the first failure ends the placing |
| MonsterParts.PlacedPartition | js/makeshaped.js:404-408 | every variant ability lands in exactly one of the trait and action lists |
| MonsterParts.SimpleVariant | js/makeshaped.js:422-429 | a simple variant is one ability holding all its text |
| MonsterParts.EnvironmentsSorted | js/makeshaped.js:493-495 | the environments are the monster's own, title-cased, in locale order |
| Monster.CapitaliseFirst | js/makeshaped.js:337 | only a lower-case ASCII first letter changes, to its upper-case form |
| Monster.ConvertMonster | js/makeshaped.js:333-498 | a converted monster keeps its name and ability scores, has no empty trait, action or reaction list, has legendary points exactly when it has legendary actions (`legendaryActions` or 3), and skills and saving throws exactly when the record has them |
| Monster.ChallengeFailsMonster | js/makeshaped.js:368 | an unreadable challenge rating fails the conversion with its own message |
| Monster.ShadowMastiffIgnoresVariants | js/makeshaped.js:419 | the Shadow Mastiff converts as if it had no variants |
| Monster.SectionsCount | js/makeshaped.js:370-442 | traits and actions together hold every statblock trait and action, every spellcasting trait and every variant ability |
| Monster.SpellcastingTraitsNamed | js/makeshaped.js:377-389 | one spellcasting trait per block, named after its block |
| Monster.AdditionalSkillsLast | js/makeshaped.js:322-330 | a monster with `other` skills gets the "Additional Skill Proficiencies" trait after its own traits' features |
| Monster.OneLineTrait | js/makeshaped.js:228-249 | a plain-named trait of one string is one feature holding that string, normalised |
| Monster.AddSpellcasting | js/makeshaped.js:377-390 | the loop pushes one trait per spellcasting block, or stops at the first error |
| Monster.PushVariant | js/makeshaped.js:399-409 | `addVariant` pushes the ability onto the actions or the traits, as `AddVariant` places it |
| Monster.AddCompound | js/makeshaped.js:430-440 | the loop over a compound variant pushes what `CompoundPlaced` places, remembering whether actions were announced |
| Monster.AddCompoundEntry | js/makeshaped.js:433-439 | a string entry only resets the actions flag; an object entry pushes its one ability, or its text's error ends the variant |
| Monster.AddOneVariant | js/makeshaped.js:420-441 | one variant pushes what `VariantPlaced` places |
| Monster.AddVariants | js/makeshaped.js:419-442 | the loop over the variants pushes what `VariantsPlaced` places, in order |
| Monster.CollectSections | js/makeshaped.js:370-442 | the three lists are those of `MonsterSections` |
| Monster.ProcessMonster | js/makeshaped.js:333-498 | the step-by-step conversion returns exactly `ConvertMonster` |
| SpellEntries.RangeCellAsWritten | js/makeshaped.js:512 | as written, the range 1 to 4 renders as `01\u201304`, ten characters and no dash |
| SpellEntries.RangeCellReadsBack | js/makeshaped.js:512 | a range renders as two padded numbers around an en dash, each read back by `parseInt` |
| SpellEntries.AlignMarker | js/makeshaped.js:524-531 | centred, right-aligned or left-aligned marker, as the style names it |
| SpellEntries.TableLinesShape | js/makeshaped.js:509-535 | a table is its header, then its divider, then each row in order, every cell rendered by `cellProc` as written (a range joined by the `\u2013` escape) |
| SpellEntries.EntriesTextsAppend | js/makeshaped.js:516-541 | mapping two runs of entries is mapping each and concatenating |
| SpellEntries.AnnouncementsRecognised | js/makeshaped.js:544 | the plain, one-die and braced-roll "damage increases … when you reach" forms are recognised wherever they stand |
| SpellEntries.ExtractedLineMoved | js/makeshaped.js:543-550 | the extracted higher-level line is moved, not copied: description and line together are the text of all entries |
| SpellEntries.NothingExtracted | js/makeshaped.js:543-550 | without an announcement at the end, every entry is in the description and there is no higher-level text |
| SpellEntries.HigherLevel | js/makeshaped.js:700-704 | without `entriesHigherLevel` the line taken from the description stays; the step throws exactly when the list is empty |
| SpellEntries.HigherLevelBlockWins | js/makeshaped.js:700-704 | an `entriesHigherLevel` block wins over a line taken from the description |
| Spell.SetLookup | js/makeshaped.js:668-695 | after `o[k] = v`, `k` holds `v` and every other property what it held |
| Spell.SetAllLookup | js/makeshaped.js:668-695 | after a run of assignments, a property holds its last assigned value or its old one |
| Spell.FormulaWritesOnly | js/makeshaped.js:666-684 | the formula's assignments touch only the damage and its bonus |
| Spell.DetailWritesOnly | js/makeshaped.js:685-696 | the later assignments touch only the type, the scaling and the casting modifier |
| Spell.FormulaWins | js/makeshaped.js:664-698 | what the formula assigns to the damage and bonus is what the block leaves there |
| Spell.DamageSplit | js/makeshaped.js:673-680 | dice and a bonus are recorded as the dice and, apart, the bonus kept as text |
| Spell.CantripDamageScales | js/makeshaped.js:667-668 | a "Cantrip Dice" progression replaces the dice count by the level-scaling expression |
| Spell.CastingModifier | js/makeshaped.js:694-696 | the casting modifier is set exactly when the data says "Yes" |
| Spell.ProcessDamageInfo | js/makeshaped.js:664-698 | the output object ends as `DamageWrites` applied to it |
| Spell.AssignDetails | js/makeshaped.js:684-697 | the damage type, the scaling and the casting modifier are assigned as `DetailWrites` lists them |
| Spell.AssignFormula | js/makeshaped.js:666-684 | the output object ends as the formula's writes applied to it |
| Spell.SecondaryKeepsPrimary | js/makeshaped.js:569-579 | when both blocks share a condition, the secondary writes under its own names and the primary's values survive |
| Spell.MissingConditionFails | js/makeshaped.js:583-597 | damage with a missing or unknown condition fails with "Missing primaryDamageCondition for spell …" |
| Spell.SaveDamageNeedsSave | js/makeshaped.js:585-586 | saved-against damage without a save ability throws at its first assignment |
| Spell.HealSplit | js/makeshaped.js:604-611 | healing of dice and a bonus is recorded as the dice and the bonus read as a number |
| Spell.HealVerbatim | js/makeshaped.js:612-614 | healing text that is not dice and a bonus is recorded as it is |
| Spell.HealRestKeeps | js/makeshaped.js:616-625 | the later healing assignments leave the formula's dice and bonus as set |
| Spell.HealDetailsSkip | js/makeshaped.js:616-625 | the assignments after the healing formula's write neither "heal" nor "bonus" |
| Spell.ApplyWritesViaEmpty | js/makeshaped.js:585-589 | assigning into an undefined object throws exactly when an empty stand-in would gain a property |
| Spell.AddDamage | js/makeshaped.js:583-598 | one damage block routed by its condition gives `DamageInto` |
| Spell.ProcessHealing | js/makeshaped.js:601-626 | the healing object is filled as `WithHealing` describes |
| Spell.AssignHealDetails | js/makeshaped.js:616-625 | the casting modifier and the scaling are assigned into the healing object as `HealDetailWrites` lists them |
| Spell.AddExtraSpellData | js/makeshaped.js:553-627 | the step-by-step assignments give `ExtraSpellData` |
| Spell.ConvertSpell | js/makeshaped.js:706-729 | a spell without supplementary data, or with an empty `entriesHigherLevel`, throws; a converted spell keeps its name, level and ritual flag, and its description and higher-level text are those its entries give, with tables rendered as the code renders them |
| Spell.ProcessSpell | js/makeshaped.js:706-729 | the step-by-step conversion returns exactly `ConvertSpell`, tables and range cells included |
| Aggregate.ByNameOrders | js/makeshaped.js:792 | comparing by name is total and transitive whenever `localeCompare` is |
| Aggregate.LevelLeOrders | js/makeshaped.js:868-871 | the level comparator is total and transitive on names that all have a level |
| Aggregate.UnlevelledNameBreaksOrder | js/makeshaped.js:868-871 | a name without a level compares "equal" to two strictly ordered names, so no order of the three satisfies the comparator |
| Aggregate.PutLookup | js/makeshaped.js:808-812 | after `obj[k] = v`, `k` reads `v` and every other key what it read |
| Aggregate.AddToArchetypeSpells | js/makeshaped.js:837-846 | adding to an archetype (created when missing) appends the spell to that archetype only |
| Aggregate.ClassListedPushes | js/makeshaped.js:798-813 | a class-list entry appends the listed name to that class in the target source and changes nothing else; the PHB-and-SRD case and a missing target change nothing |
| Aggregate.SubclassListedPushes | js/makeshaped.js:815-847 | a subclass entry appends the spell's name to its archetype in the target source; the four skipped subclasses and missing sources change nothing |
| Aggregate.RecordLevelAsWritten | js/makeshaped.js:797 | as written, only the spell's own name gets its level |
| Aggregate.RenamedNameUnlevelledAsWritten | js/makeshaped.js:797-812 | as written, a renamed spell listed for a non-PHB class lands in that list under a name with no level |
| Aggregate.RecordLevel | js/makeshaped.js:797-802 | as intended: the level is recorded under the spell's name and under the name the class lists receive |
| Aggregate.CorrectedContext | js/makeshaped.js:797-802 | replacing only the level recording by `RecordLevel` gives a context that levels every listed name, with everything else as before |
| Aggregate.SpellIndexed | js/makeshaped.js:797-847 | indexing a spell writes only into sources that exist: the set of sources is unchanged; the level table is updated by the context's recording, which `WiredContext` binds to the code's |
| Aggregate.SpellResultCases | js/makeshaped.js:848-861 | an SRD spell yields nothing; a renamed one yields its stub; any other its conversion or "Error with spell … in file …" |
| Aggregate.SrdMonsterPruned | js/makeshaped.js:771-789 | an SRD monster is dropped without lair data and otherwise reduced to its name and lair data; other monsters are kept whole |
| Aggregate.WiredContext | js/makeshaped.js:773-858 | the pass's per-record converters are `processMonster` with the legendary groups and `processSpell` with the supplementary spell data, and its level recording is the code's, under the spell's own name only |
| Aggregate.PresentMembers | js/makeshaped.js:791 | the filter keeps exactly the values that are there, in order |
| Aggregate.SpellsFoldStep | js/makeshaped.js:796-862 | after a prefix that threw nothing, the spell pass goes on with the next spell |
| Aggregate.SpellsFoldStops | js/makeshaped.js:857-861 | once a spell throws, later spells change nothing |
| Aggregate.CollectAllStops | js/makeshaped.js:766-866 | once a source throws, later sources change nothing |
| Aggregate.ToProcessMembers | js/makeshaped.js:763-764 | the pass converts exactly the sources without a bundle that have monster or spell input, in table order |
| Aggregate.SpellsFoldLevelled | js/makeshaped.js:796-847 | with the corrected level recording, the spell pass keeps every listed name levelled and gives every spell of the file a level |
| Aggregate.CollectAllLevelled | js/makeshaped.js:766-866 | with the corrected level recording, the collecting pass keeps every listed name in the level table |
| Aggregate.CollectAllKeepsNames | js/makeshaped.js:766-866 | no step of the pass renames or removes a source |
| Aggregate.MonstersOrdered | js/makeshaped.js:791-792 | a monster file's list ends up ordered by name |
| Aggregate.SpellsOrdered | js/makeshaped.js:863-864 | a spell file's list ends up ordered by name |
| Aggregate.FinalClassOrdered | js/makeshaped.js:881-894 | a finalised class has its spells ordered by level and name, its archetypes by name, keeps every name and drops exactly the empty lists |
| Aggregate.FinalisedOrdered | js/makeshaped.js:874-903 | a bundle carries the source's name, dependencies and version "2.0.0", classes ordered by name, and no empty list |
| Aggregate.FinaliseAllAt | js/makeshaped.js:873-904 | the finalising pass stamps exactly the pending sources, each from its own collected record |
| Aggregate.ConvertAllOrdered | js/makeshaped.js:761-905 | with the corrected level recording, when nothing throws, every pending source gets a bundle whose classes and lists are ordered and whose listed names all have levels |
| Aggregate.FinaliseClass | js/makeshaped.js:882-894 | the in-place sorts and deletions give `FinalClass` |
| Aggregate.OrderArchetypes | js/makeshaped.js:893 | each archetype's spells are sorted in place, the archetypes kept in their order |
| Aggregate.FinaliseClasses | js/makeshaped.js:880-896 | the finalised classes sorted by name, as a stable sort |
| Aggregate.FinalBundle | js/makeshaped.js:874-903 | the bundle built field by field is `Finalised` |
| Aggregate.Converter.IndexClassList | js/makeshaped.js:798-813 | the loop leaves the sources as `ClassListFold` |
| Aggregate.Converter.IndexClass | js/makeshaped.js:799-812 | one listing class receives the spell's name unless the SRD lists the spell for a PHB class or the target source is not loaded |
| Aggregate.Converter.IndexSubclasses | js/makeshaped.js:815-847 | the loop leaves the sources as `SubclassFold` |
| Aggregate.Converter.IndexSubclass | js/makeshaped.js:816-846 | one listing subclass's archetype receives the spell's name unless the subclass is skipped or a source is not loaded |
| Aggregate.Converter.ConvertMonsters | js/makeshaped.js:771-792 | the monster list is `MonstersOf`, or the first monster's error with the sources unchanged |
| Aggregate.Converter.ConvertOneSpell | js/makeshaped.js:796-862 | one callback records the level through the context, updates the class tables as `SpellIndexed` and returns `SpellResultOf` |
| Aggregate.Converter.ConvertSpells | js/makeshaped.js:795-865 | the spell list, level table and class tables are those of `SpellsDone`; under `WiredContext` the spells are converted and levelled as the code does |
| Aggregate.Converter.ConvertInput | js/makeshaped.js:766-866 | one source is collected as `InputConverted` |
| Aggregate.Converter.Collect | js/makeshaped.js:766-866 | the collecting loop ends as `CollectAll` |
| Aggregate.Converter.FinaliseInput | js/makeshaped.js:873-904 | one source gets its bundle `Finalised` and nothing else changes |
| Aggregate.Converter.FinaliseKeys | js/makeshaped.js:873-904 | the finalising loop ends as `FinaliseAll` |
| Aggregate.Converter.ConvertData | js/makeshaped.js:761-905 | the table of sources and the error are those of `ConvertAll`; under `WiredContext` that is the code's pass, spell tables and level recording as written |

## Left out

- The input loaders (`getInputs`), the JavaScript generator (`generateShapedJS`), the page script
  (`window.onload`), `JSON.stringify` and all network and file I/O are not part of this model.
- `Parser` lookups, `toTitleCase`, `toLocaleLowerCase`, `toLocaleUpperCase` and `localeCompare`
  are caller-supplied functions. `localeCompare` is an abstract order, assumed total and
  transitive only where a lemma says so.
- `serialiseFixer`'s object branch (reordering `recharge` and dropping a cost of 1) is not
  modelled. Only its string branch is.
- The legendary-group merge at the start of `convertData` (line 768) reads a property of the
  monster array and never fires, so it is not modelled. The shared legendary-group index is an
  input.
- Error messages:
  - Thrown errors carry the message text only. `e.stack` and the "Error: " prefix that
    `toString` adds are not modelled.
  - Errors thrown by the engine, such as reading a property of `undefined`, carry a fixed stand-in
    message, because the real text depends on the engine.
- Values are not aliased:
  - The model does not mutate the records that are passed in: `monster.trait` gaining the
    skills trait, `environment` sorted in place, and the source's `classes` lists sorted and
    deleted in place at finalisation.
  - Each of these is modelled on values: the finalised copies live only in `converted`, and the
    input's own class tables are left as collected.
- `Aggregate.ConvertAllOrdered`: stated only for sources whose class tables list no spell at the
  start, as the loaders create them. Tables filled by an earlier call could hold names without
  levels.
- `Aggregate.ConvertAllOrdered` is proved for the corrected level recording (`RecordLevel`, bound
  by `CorrectedContext`). Under the code as written, the ordering guarantee fails for renamed SRD
  spells (Finding 2).
- `Aggregate.SpellsFoldLevelled` and `Aggregate.CollectAllLevelled` ("every listed name has a
  level") are likewise stated for the corrected level recording only. With the code's recording
  a renamed spell's listed name has no level.
- Strings are sequences of Unicode code points. JavaScript strings are sequences of UTF-16 code
  units, so for a character outside the Basic Multilingual Plane, `slice(0, 1)` (line 136) and the
  regular expressions' `.` and `[^…]` (lines 201 and 256) see one half of a surrogate pair where
  the model sees the whole character.
- Input shapes:
  - A spellcasting block whose value has the wrong shape (for example a per-period group that is
    not an object) fails with a fixed stand-in message.
  - A source whose monster file is loaded while its spell file is still a URL is not
    distinguished: inputs are already loaded records or absent.
  - Prototype keys of plain objects (such as "constructor" in the rename table) are not modelled.
    Lookups see only the object's own keys.
- Higher-level scaling with a decimal point goes through `parseFloat`. Its value is kept as the
  original text, because floating point is not modelled.
- `Monster.ConvertMonster` does not state the text fields that come straight from the lookups
  (size, type, alignment, speed, damage texts). They are copied from the supplied functions and
  add nothing to prove.

## Findings

| source | as written | input that shows it | evidently intended | confidence | as-written member | corrected member |
|---|---|---|---|---|---|---|
| js/makeshaped.js:512 | the template literal escapes the backslash, so a range cell is joined by the six characters `\u2013` | a roll cell with `min` 1 and `max` 4 renders as `01\u201304` | an en dash between the two padded numbers, `01–04` | high, not executed | SpellEntries.RangeCellAsWritten | SpellEntries.RangeCellReadsBack |
| js/makeshaped.js:797-812 | the level is recorded under the spell's own name, but a renamed SRD spell is listed under its new name | a renamed spell listed for a class whose source is not PHB, such as "Melf's Acid Arrow" renamed "Acid Arrow": the class list gets "Acid Arrow", which has no level, so the comparator returns NaN and the list order depends on the sort's internals | every listed name has a level, so each list is ordered by level and name | medium, not executed | Aggregate.RenamedNameUnlevelledAsWritten | Aggregate.RecordLevel |
