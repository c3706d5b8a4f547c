/** Log levels and the bracketed tags the rotating logger prints for them
    (rotate/logger.go:64-80 builds the table, rotate/logger.go:170-185 looks it up). */
module Levels {

  /** The six levels the logger has a tag for, plus any other level value,
      which is printed through its own text. */
  datatype Level = Trace | Debug | Info | Warning | Error | Panic | Other(text: string)

  /** The text of a level. The runtime's own level names are not part of this
      model; these lower-case names stand in for them. */
  function Text(l: Level): string
  {
    match l
    case Trace => "trace"
    case Debug => "debug"
    case Info => "info"
    case Warning => "warning"
    case Error => "error"
    case Panic => "panic"
    case Other(t) => t
  }

  predicate Known(l: Level)
  {
    !l.Other?
  }

  /** `"[" + text + "]"`, the long form of a tag and the fallback for unknown levels. */
  function Bracket(text: string): (r: string)
    ensures |r| == |text| + 2 && r[0] == '[' && r[|r| - 1] == ']'
    ensures r[1..|r| - 1] == text
  {
    "[" + text + "]"
  }

  /** The per-logger tag table, one entry per known level. */
  datatype LevelTags = LevelTags(trace: string, debug: string, info: string,
                                 warning: string, error: string, panic: string)

  /** The table chosen at construction: three-letter tags when short names are
      requested, otherwise the bracketed level text. */
  function TagsFor(short: bool): (t: LevelTags)
    ensures short ==> t.trace == "[TRC]" && t.debug == "[DBG]" && t.info == "[INF]"
    ensures short ==> t.warning == "[WRN]" && t.error == "[ERR]" && t.panic == "[PNC]"
    ensures !short ==> t.trace == Bracket(Text(Trace)) && t.debug == Bracket(Text(Debug))
    ensures !short ==> t.info == Bracket(Text(Info)) && t.warning == Bracket(Text(Warning))
    ensures !short ==> t.error == Bracket(Text(Error)) && t.panic == Bracket(Text(Panic))
  {
    if short then
      LevelTags("[TRC]", "[DBG]", "[INF]", "[WRN]", "[ERR]", "[PNC]")
    else
      LevelTags(Bracket(Text(Trace)), Bracket(Text(Debug)), Bracket(Text(Info)),
                Bracket(Text(Warning)), Bracket(Text(Error)), Bracket(Text(Panic)))
  }

  /** The tag printed for a level: the table entry for a known level, and the
      bracketed level text for any other. */
  function Tag(tags: LevelTags, l: Level): string
  {
    match l
    case Trace => tags.trace
    case Debug => tags.debug
    case Info => tags.info
    case Warning => tags.warning
    case Error => tags.error
    case Panic => tags.panic
    case Other(t) => Bracket(t)
  }

  /** With long names every level, known or not, is printed as its bracketed text. */
  lemma LongTagIsBracketedText(l: Level)
    ensures Tag(TagsFor(false), l) == Bracket(Text(l))
  {
  }

  /** With short names every known level gets a five-character tag, and no two
      known levels share one. */
  lemma ShortTagsDistinct(a: Level, b: Level)
    requires Known(a) && Known(b)
    ensures |Tag(TagsFor(true), a)| == 5
    ensures Tag(TagsFor(true), a) == Tag(TagsFor(true), b) <==> a == b
  {
    var x, y := Tag(TagsFor(true), a), Tag(TagsFor(true), b);
    if a != b {
      assert x[1] != y[1];
    }
  }

  /** Unknown levels fall back to their bracketed text under either table. */
  lemma UnknownLevelFallback(short: bool, text: string)
    ensures Tag(TagsFor(short), Other(text)) == Bracket(text)
  {
  }

  /** What the lookup prints under either table: with short names a known
      level gets a five-character tag in square brackets, and every other
      case prints the bracketed level text. */
  lemma TagPrinted(short: bool, l: Level)
    ensures var r := Tag(TagsFor(short), l);
            && (short && Known(l) ==> |r| == 5 && r[0] == '[' && r[4] == ']' && r != Bracket(Text(l)))
            && (!(short && Known(l)) ==> r == Bracket(Text(l)))
  {
    if short && Known(l) {
      assert |Bracket(Text(l))| != 5;
    }
  }
}
