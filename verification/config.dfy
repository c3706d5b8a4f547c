/** The logger's options and their normalisation at construction
    (rotate/logger.go:36-80, options declared at rotate/logger.go:85-105). */
module Config {
  import opened Levels
  import Clock

  /** What a caller configures. A period is a Go duration in nanoseconds and
      may be anything, negative included; so may the depth. */
  datatype Options = Options(
    timeFormat: string,
    includeBehavior: bool,
    includeName: bool,
    shortLevelName: bool,
    path: string,
    prefix: string,
    period: int,
    compress: bool,
    depth: int)

  /** The settings the sink runs with once constructed. */
  datatype Logger = Logger(
    dir: string,
    prefix: string,
    period: nat,
    suffix: string,
    timeFormat: string,
    includeBehavior: bool,
    includeName: bool,
    depth: int,
    tags: LevelTags)

  /** The shapes every constructed logger has. */
  predicate Valid(cfg: Logger)
  {
    && cfg.period >= Clock.Minute
    && (cfg.suffix == ".log" || cfg.suffix == ".log.gz")
    && (cfg.tags == TagsFor(true) || cfg.tags == TagsFor(false))
  }

  /** The rotation period, raised to one minute when shorter (rotate/logger.go:49-51). */
  function ClampPeriod(period: int): (r: nat)
    ensures r >= Clock.Minute
    ensures period >= Clock.Minute ==> r == period
    ensures period < Clock.Minute ==> r == Clock.Minute
  {
    if period < Clock.Minute then Clock.Minute else period
  }

  /** The rotated-file suffix (rotate/logger.go:55-58). */
  function Suffix(compress: bool): (r: string)
    ensures r == ".log.gz" <==> compress
    ensures r == ".log" <==> !compress
  {
    if compress then ".log.gz" else ".log"
  }

  /** Construction's normalisation of the options. `exeBase` is the base name
      of the running executable, which stands in for an empty prefix. */
  function Normalize(opts: Options, exeBase: string): (cfg: Logger)
    ensures Valid(cfg)
    ensures cfg.period >= Clock.Minute
    ensures opts.period >= Clock.Minute ==> cfg.period == opts.period
    ensures cfg.period == ClampPeriod(opts.period)
    ensures cfg.suffix == ".log.gz" <==> opts.compress
    ensures cfg.tags == TagsFor(opts.shortLevelName)
    ensures cfg.prefix == (if opts.prefix == "" then exeBase else opts.prefix)
    ensures cfg.depth == opts.depth && cfg.dir == opts.path && cfg.timeFormat == opts.timeFormat
    ensures cfg.includeName == opts.includeName && cfg.includeBehavior == opts.includeBehavior
  {
    Logger(
      opts.path,
      if opts.prefix == "" then exeBase else opts.prefix,
      ClampPeriod(opts.period),
      Suffix(opts.compress),
      opts.timeFormat,
      opts.includeBehavior,
      opts.includeName,
      opts.depth,
      TagsFor(opts.shortLevelName))
  }

  /** Normalising options that already came out of normalisation changes nothing. */
  lemma NormalizeIdempotent(opts: Options, exeBase: string)
    ensures var cfg := Normalize(opts, exeBase);
            Normalize(opts.(prefix := cfg.prefix, period := cfg.period), exeBase) == cfg
  {
  }
}
