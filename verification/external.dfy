/**
 * The code the converter calls but does not define: the `Parser` lookups that render 5etools
 * codes as text, the locale-dependent string methods and `localeCompare`. Each is a total
 * function supplied by the caller, so every property proved here holds whatever they return.
 */
module External {
  import opened Wrappers

  /** A JSON value handed, untouched, to one of the lookups. */
  type Raw = string

  datatype Lookups = Lookups(
    /** `Parser.spLevelToFullLevelText`; `None` is the `NaN` that `parseInt` gives for a non-number. */
    levelText: Option<int> -> string,
    /** `String.prototype.toTitleCase`. */
    titleCase: string -> string,
    /** `toLocaleLowerCase` and `toLowerCase`. */
    lowerCase: string -> string,
    /** `toLocaleUpperCase` of one character (it may give more than one, as for "ß"). */
    upperChar: char -> string,
    /** `Parser.sizeAbvToFull`. */
    sizeText: Raw -> string,
    /** `Parser.monTypeToFullObj(type).asText`. */
    typeText: Raw -> string,
    /** `Parser.alignmentListToFull`. */
    alignmentText: Raw -> string,
    /** `Parser.getSpeedString`, given the monster's speed. */
    speedText: Raw -> string,
    /** `Parser.monImmResToFull`. */
    immResText: Raw -> string,
    /** `Parser.monCondImmToFull`. */
    condImmText: Raw -> string,
    /** `Parser.spSchoolAbvToFull`, `spTimeListToFull`, `spRangeToFull`, `spComponentsToFull`, `spDurationToFull`. */
    schoolText: Raw -> string,
    timeText: Raw -> string,
    rangeText: Raw -> string,
    componentsText: Raw -> string,
    durationText: Raw -> string,
    /** `a.localeCompare(b) <= 0`. */
    localeLe: (string, string) -> bool
  )
}
