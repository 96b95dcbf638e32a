/**
 * `processSpellEntries` and `processHigherLevel`: a spell's entry tree becomes markdown text,
 * and the line that says what the spell does at higher levels is taken out of it.
 */
module SpellEntries {
  import opened Wrappers
  import opened Text
  import opened Markup
  import opened Grammars

  /** A table cell: text, a die roll (an exact value, or a range from `min` to `max`), or anything else. */
  datatype Cell = CellText(s: string) | CellRoll(exact: Option<int>, min: int, max: int) | CellOther

  /** An entry of a spell's description. */
  datatype SpellEntry =
    | SText(s: string)
    | STable(caption: Option<string>, colLabels: seq<Cell>, colStyles: seq<string>, rows: seq<seq<Cell>>)
    | SList(items: seq<string>)
    | SBlock(name: string, entries: seq<SpellEntry>)

  /** The en dash, U+2013. */
  const EnDash: char := '\U{2013}'

  /** The six characters of the escape sequence for the en dash: backslash, "u", "2", "0", "1", "3". */
  const EscapedEnDash: string := "\\u2013"

  // ---------------------------------------------------------------------------------------------
  // Cells

  /** A table cell with the given text between the two ends of a range. */
  function CellWith(c: Cell, dash: string): string {
    match c
    case CellText(s) => s
    case CellRoll(exact, min, max) =>
      if exact.Some? && exact.value != 0 then IntToString(exact.value)
      else PadInteger(min) + dash + PadInteger(max)
    case CellOther => ""
  }

  /**
   * `cellProc` as written: the template literal escapes its backslash, so a range is joined by
   * the six characters of the escape sequence rather than by a dash. The tables below use this one.
   */
  function CellAsWritten(c: Cell): string {
    CellWith(c, EscapedEnDash)
  }

  /** `cellProc` as intended: a range is joined by an en dash. */
  function CellString(c: Cell): string {
    CellWith(c, [EnDash])
  }

  /** The range 1 to 4 is rendered with a backslash escape, ten characters long, and without a dash. */
  lemma RangeCellAsWritten()
    ensures CellAsWritten(CellRoll(None, 1, 4)) == "01\\u201304"
    ensures EnDash !in CellAsWritten(CellRoll(None, 1, 4))
  {
    assert IntToString(1) == "1" && IntToString(4) == "4";
  }

  /** A range of two-digit-padded numbers is the two numbers around a dash, each read back by `parseInt`. */
  lemma RangeCellReadsBack(min: nat, max: nat)
    ensures var t := CellString(CellRoll(None, min, max));
      var k := |PadInteger(min)|;
      && k < |t| && t[k] == EnDash
      && ParseInt(t[..k]) == Some(min as int) && ParseInt(t[k + 1..]) == Some(max as int)
  {
    var t := CellString(CellRoll(None, min, max));
    var k := |PadInteger(min)|;
    assert t == PadInteger(min) + [EnDash] + PadInteger(max);
    assert t[..k] == PadInteger(min) && t[k + 1..] == PadInteger(max);
    PadIntegerReadsBack(min);
    PadIntegerReadsBack(max);
  }

  // ---------------------------------------------------------------------------------------------
  // Tables

  /** The alignment marker of one column: centred, right-aligned, or left-aligned otherwise. */
  function AlignMarker(style: string): (r: string)
    ensures (r == ":----:") == Contains(style, "text-align-center")
    ensures (r == "----:") == (!Contains(style, "text-align-center") && Contains(style, "text-align-right"))
    ensures r == ":----" || r == ":----:" || r == "----:"
  {
    if Contains(style, "text-align-center") then ":----:"
    else if Contains(style, "text-align-right") then "----:"
    else ":----"
  }

  /** The cells of one row, as `cellProc` renders them. */
  function Cells(row: seq<Cell>): (r: seq<string>)
    ensures |r| == |row| && forall i :: 0 <= i < |row| ==> r[i] == CellAsWritten(row[i])
  {
    seq(|row|, i requires 0 <= i < |row| => CellAsWritten(row[i]))
  }

  /** One markdown table row. */
  function RowLine(row: seq<Cell>): string {
    "| " + Join(Cells(row), " | ") + " |"
  }

  function Markers(styles: seq<string>): (r: seq<string>)
    ensures |r| == |styles| && forall i :: 0 <= i < |styles| ==> r[i] == AlignMarker(styles[i])
  {
    seq(|styles|, i requires 0 <= i < |styles| => AlignMarker(styles[i]))
  }

  /** The line of alignment markers under the header. */
  function Divider(styles: seq<string>): string {
    "|" + Join(Markers(styles), "|") + "|"
  }

  /** The header and data rows, formatted, with the divider spliced in at index 1. */
  function TableLines(labels: seq<Cell>, styles: seq<string>, rows: seq<seq<Cell>>): seq<string> {
    var formatted := seq(|rows| + 1, i requires 0 <= i < |rows| + 1 => RowLine(if i == 0 then labels else rows[i - 1]));
    formatted[..1] + [Divider(styles)] + formatted[1..]
  }

  /** The table is its header, then its divider, then each row in order. */
  lemma TableLinesShape(labels: seq<Cell>, styles: seq<string>, rows: seq<seq<Cell>>)
    ensures var r := TableLines(labels, styles, rows);
      && |r| == |rows| + 2 && r[0] == RowLine(labels) && r[1] == Divider(styles)
      && forall i :: 0 <= i < |rows| ==> r[i + 2] == RowLine(rows[i])
  {
  }

  /** The caption as a level-5 heading on its own line, when there is a caption. */
  function Title(caption: Option<string>): string {
    if caption.Some? && caption.value != "" then "##### " + caption.value + "\n" else ""
  }

  // ---------------------------------------------------------------------------------------------
  // Entries

  /** `entryMapper`: the markdown text of one entry. */
  function EntryText(e: SpellEntry): string
    decreases e
  {
    match e
    case SText(s) => s
    case STable(caption, labels, styles, rows) => Title(caption) + Join(TableLines(labels, styles, rows), "\n")
    case SList(items) => Join(seq(|items|, i requires 0 <= i < |items| => "- " + items[i]), "\n")
    case SBlock(name, entries) => "***" + name + ".*** " + Join(EntriesTexts(entries), "\n")
  }

  /** `entries.map(entryMapper)`. */
  function EntriesTexts(es: seq<SpellEntry>): (r: seq<string>)
    ensures |r| == |es|
    decreases es
  {
    if es == [] then [] else [EntryText(es[0])] + EntriesTexts(es[1..])
  }

  lemma {:induction false} EntriesTextsAt(es: seq<SpellEntry>, i: nat)
    requires i < |es|
    ensures EntriesTexts(es)[i] == EntryText(es[i])
    decreases i
  {
    if i > 0 {
      EntriesTextsAt(es[1..], i - 1);
    }
  }

  /** Mapping two runs of entries is mapping each and concatenating. */
  lemma {:induction false} EntriesTextsAppend(a: seq<SpellEntry>, b: seq<SpellEntry>)
    ensures EntriesTexts(a + b) == EntriesTexts(a) + EntriesTexts(b)
    decreases |a|
  {
    if a == [] {
      assert a + b == b;
    } else {
      assert (a + b)[0] == a[0] && (a + b)[1..] == a[1..] + b;
      EntriesTextsAppend(a[1..], b);
    }
  }

  // ---------------------------------------------------------------------------------------------
  // The higher-level line

  /** `{[^}]+}` at the front of `t`: the length of a non-empty braced group. */
  function BracedEnd(t: string): (r: Option<nat>)
    ensures r.Some? ==> 2 < r.value <= |t|
  {
    if t != [] && t[0] == '{' then
      var k := IndexOf(t[1..], '}');
      if 0 < k < |t| - 1 then Some(k + 2) else None
    else None
  }

  const Increases: string := "damage increases"
  const WhenYouReach: string := " when you reach"
  const MoreBeams: string := "creates more than one beam when you reach"

  /** `/damage increases(?: by (?:{[^}]+}|one die))? when you reach/` matches at the front of `t`. */
  predicate IncreasesAt(t: string) {
    Increases <= t &&
    var u := t[|Increases|..];
    || WhenYouReach <= u
    || (" by " <= u &&
        var v := u[4..];
        || "one die" + WhenYouReach <= v
        || (BracedEnd(v).Some? && WhenYouReach <= v[BracedEnd(v).value..]))
  }

  /** The last entry says how the spell grows: one of the two patterns matches somewhere in it. */
  predicate AnnouncesHigherLevel(s: string) {
    exists i | 0 <= i <= |s| :: IncreasesAt(s[i..]) || MoreBeams <= s[i..]
  }

  lemma AnnouncesAt(pre: string, phrase: string, post: string)
    requires IncreasesAt(phrase + post) || MoreBeams <= phrase + post
    ensures AnnouncesHigherLevel(pre + phrase + post)
  {
    var s := pre + phrase + post;
    assert s[|pre|..] == phrase + post;
  }

  lemma IncreasesPlain(post: string)
    ensures IncreasesAt(Increases + WhenYouReach + post)
  {
    var t := Increases + WhenYouReach + post;
    assert t[|Increases|..] == WhenYouReach + post;
  }

  lemma IncreasesByOneDie(post: string)
    ensures IncreasesAt(Increases + " by one die" + WhenYouReach + post)
  {
    var t := Increases + " by one die" + WhenYouReach + post;
    var u := t[|Increases|..];
    assert u == " by " + ("one die" + WhenYouReach + post);
    assert u[4..] == "one die" + WhenYouReach + post;
  }

  lemma IncreasesByBraced(g: string, post: string)
    requires g != [] && '}' !in g
    ensures IncreasesAt(Increases + " by " + Braced(g) + WhenYouReach + post)
  {
    var rest := WhenYouReach + post;
    var v := Braced(g) + rest;
    BracedGroupEnd(g, rest);
    IncreasesBy(v);
    assert Increases + " by " + Braced(g) + WhenYouReach + post == Increases + " by " + v;
  }

  /** "{<g>}". */
  function Braced(g: string): string {
    "{" + g + "}"
  }

  lemma BracedGroupEnd(g: string, rest: string)
    requires g != [] && '}' !in g
    ensures BracedEnd(Braced(g) + rest) == Some(|g| + 2)
    ensures (Braced(g) + rest)[|g| + 2..] == rest
  {
    var v := Braced(g) + rest;
    assert v[1..] == g + ("}" + rest);
    IndexOfPast(g, "}" + rest, '}');
  }

  lemma IncreasesBy(v: string)
    requires BracedEnd(v).Some? && WhenYouReach <= v[BracedEnd(v).value..]
    ensures IncreasesAt(Increases + " by " + v)
  {
    var t := Increases + " by " + v;
    assert t[|Increases|..] == " by " + v;
    assert t[|Increases|..][4..] == v;
  }

  /** The plain form, the form naming one die and the form with a braced roll are recognised wherever they stand. */
  lemma AnnouncementsRecognised(pre: string, g: string, post: string)
    requires g != [] && '}' !in g
    ensures AnnouncesHigherLevel(pre + (Increases + WhenYouReach) + post)
    ensures AnnouncesHigherLevel(pre + (Increases + " by one die" + WhenYouReach) + post)
    ensures AnnouncesHigherLevel(pre + (Increases + " by " + Braced(g) + WhenYouReach) + post)
    ensures AnnouncesHigherLevel(pre + MoreBeams + post)
  {
    IncreasesPlain(post);
    AnnouncesAt(pre, Increases + WhenYouReach, post);
    IncreasesByOneDie(post);
    AnnouncesAt(pre, Increases + " by one die" + WhenYouReach, post);
    IncreasesByBraced(g, post);
    AnnouncesAt(pre, Increases + " by " + Braced(g) + WhenYouReach, post);
    AnnouncesAt(pre, MoreBeams, post);
  }

  /** `IndexOf` passes over a run without the character to the one that follows. */
  lemma {:induction false} IndexOfPast(a: string, b: string, c: char)
    requires c !in a && b != [] && b[0] == c
    ensures IndexOf(a + b, c) == |a|
    decreases |a|
  {
    if a == [] {
      assert a + b == b;
    } else {
      assert (a + b)[0] == a[0] && (a + b)[1..] == a[1..] + b;
      IndexOfPast(a[1..], b, c);
    }
  }

  /** `processSpellEntries` leaves the description and, when the last entry announces it, the higher-level text. */
  datatype Described = Described(description: string, higherLevel: Option<string>)

  predicate ExtractsLast(entries: seq<SpellEntry>) {
    entries != [] && entries[|entries| - 1].SText? && AnnouncesHigherLevel(entries[|entries| - 1].s)
  }

  function ProcessSpellEntries(entries: seq<SpellEntry>): Described {
    if ExtractsLast(entries) then
      Described(FixLinks(Join(EntriesTexts(entries[..|entries| - 1]), "\n")), Some(FixLinks(entries[|entries| - 1].s)))
    else
      Described(FixLinks(Join(EntriesTexts(entries), "\n")), None)
  }

  /**
   * The extracted line is moved, not copied: the description's text and the higher-level line,
   * joined by a newline, are the text of all the entries.
   */
  lemma ExtractedLineMoved(entries: seq<SpellEntry>)
    requires ExtractsLast(entries) && |entries| > 1
    ensures var init := entries[..|entries| - 1];
      Join(EntriesTexts(entries), "\n") == Join(EntriesTexts(init), "\n") + "\n" + entries[|entries| - 1].s
  {
    var init := entries[..|entries| - 1];
    var last := entries[|entries| - 1];
    assert entries == init + [last];
    EntriesTextsAppend(init, [last]);
    assert EntriesTexts([last]) == [EntryText(last)];
    JoinAppend(EntriesTexts(init), last.s, "\n");
  }

  /** Without an announcement at the end, every entry is in the description and there is no higher-level text. */
  lemma NothingExtracted(entries: seq<SpellEntry>)
    requires !ExtractsLast(entries)
    ensures ProcessSpellEntries(entries).higherLevel.None?
    ensures ProcessSpellEntries(entries).description == FixLinks(Join(EntriesTexts(entries), "\n"))
  {
  }

  /**
   * `processHigherLevel`: the first of the `entriesHigherLevel` blocks, its lines joined, replaces
   * the higher-level text; an empty list has no first block and throws.
   */
  function HigherLevel(extracted: Option<string>, entriesHigherLevel: Option<seq<seq<string>>>): (r: Result<Option<string>>)
    ensures entriesHigherLevel.None? ==> r == Ok(extracted)
    ensures r.Err? <==> entriesHigherLevel == Some([])
  {
    if entriesHigherLevel.None? then Ok(extracted)
    else if entriesHigherLevel.value == [] then Err("TypeError: Cannot read properties of undefined (reading 'entries')")
    else Ok(Some(FixLinks(Join(entriesHigherLevel.value[0], "\n"))))
  }

  /** An `entriesHigherLevel` block wins over a line taken from the description. */
  lemma HigherLevelBlockWins(extracted: Option<string>, block: seq<string>, more: seq<seq<string>>)
    ensures HigherLevel(extracted, Some([block] + more)).Ok?
    ensures HigherLevel(extracted, Some([block] + more)).value == Some(FixLinks(Join(block, "\n")))
  {
  }
}
