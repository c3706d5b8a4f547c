/** One rotation of the active file (rotate/logger.go:229-272). */
module Rotation {
  import opened Outcomes
  import opened Config
  import Clock
  import Retention

  /** The file store: the next switch time, the lines of the active file and
      the rotated files still kept, oldest first. */
  datatype Store = Store(switchTime: nat, active: seq<string>, retained: seq<string>)

  /** What a rotation did on disk. `CreateFailed`: the target could not be
      created and nothing was copied. `Archived`: the target was written with
      `content` (compressed or not, the same lines) and, when the retention
      list overflowed, `evicted` was deleted. */
  datatype Effect =
    | CreateFailed(path: string)
    | Archived(path: string, content: seq<string>, evicted: Option<string>)

  datatype Rotated = Rotated(store: Store, effect: Effect)

  /** What every store reachable from construction satisfies: the switch time
      is on a period boundary and the retention list respects the depth. */
  predicate Valid(cfg: Logger, s: Store)
  {
    && cfg.period > 0
    && Clock.Aligned(s.switchTime, cfg.period)
    && (cfg.depth > 0 ==> |s.retained| <= cfg.depth)
    && (cfg.depth <= 0 ==> s.retained == [])
  }

  /** `filepath.Join` of the log directory and a file name. */
  function Join(dir: string, name: string): string
  {
    dir + "/" + name
  }

  /** The rotated file's name: prefix, the stamp of the window that is
      closing (it starts one period before the switch time), suffix. */
  function RotatedName(cfg: Logger, stamp: int -> string, switchTime: nat): (r: string)
    ensures |r| > |cfg.prefix| && r[..|cfg.prefix| + 1] == cfg.prefix + "."
    ensures |r| >= |cfg.suffix| && r[|r| - |cfg.suffix|..] == cfg.suffix
  {
    var r := cfg.prefix + "." + stamp(switchTime - cfg.period) + cfg.suffix;
    assert r[..|cfg.prefix| + 1] == cfg.prefix + ".";
    assert r[|r| - |cfg.suffix|..] == cfg.suffix;
    r
  }

  /** Lines that were in the active file and have been archived, in order. */
  function ArchivedLines(effects: seq<Effect>): seq<string>
  {
    if |effects| == 0 then []
    else
      (match effects[0]
       case CreateFailed(_) => []
       case Archived(_, content, _) => content)
      + ArchivedLines(effects[1..])
  }

  lemma {:induction false} ArchivedLinesAppend(a: seq<Effect>, b: seq<Effect>)
    ensures ArchivedLines(a + b) == ArchivedLines(a) + ArchivedLines(b)
    decreases |a|
  {
    if |a| == 0 {
      assert a + b == b;
    } else {
      ArchivedLinesAppend(a[1..], b);
      assert (a + b)[1..] == a[1..] + b;
    }
  }

  /** One rotation at `now`. The target is named from the switch time before
      it moves; the schedule moves on first, so a failed create
      (`createOk` false) still advances it but leaves the active file and the
      retention list as they were. A successful one copies the active lines
      out, empties the active file and records the target. */
  function SwitchFile(cfg: Logger, stamp: int -> string, s: Store, now: nat, createOk: bool): (r: Rotated)
    requires cfg.period > 0
    ensures r.store.switchTime == Clock.Advance(s.switchTime, now, cfg.period)
    ensures r.effect.path == Join(cfg.dir, RotatedName(cfg, stamp, s.switchTime))
    ensures !createOk ==> r.effect.CreateFailed? && r.store.active == s.active && r.store.retained == s.retained
    ensures createOk ==> r.effect.Archived? && r.effect.content == s.active && r.store.active == []
    ensures createOk ==> Retention.Retain(s.retained, cfg.depth, r.effect.path)
                         == Retention.Retained(r.store.retained, r.effect.evicted)
  {
    var path := Join(cfg.dir, RotatedName(cfg, stamp, s.switchTime));
    var next := Clock.Advance(s.switchTime, now, cfg.period);
    if !createOk then
      Rotated(s.(switchTime := next), CreateFailed(path))
    else
      var kept := Retention.Retain(s.retained, cfg.depth, path);
      Rotated(Store(next, [], kept.list), Archived(path, s.active, kept.evicted))
  }

  /** A rotation loses no line: what it archives followed by what stays
      active is what was active before, whether or not the create succeeds. */
  lemma SwitchFileKeepsLines(cfg: Logger, stamp: int -> string, s: Store, now: nat, createOk: bool)
    requires cfg.period > 0
    ensures var r := SwitchFile(cfg, stamp, s, now, createOk);
            ArchivedLines([r.effect]) + r.store.active == s.active
  {
    var r := SwitchFile(cfg, stamp, s, now, createOk);
    assert [r.effect][1..] == [];
  }

  /** A rotation keeps the store valid and leaves the schedule not due at `now`. */
  lemma SwitchFileKeepsValid(cfg: Logger, stamp: int -> string, s: Store, now: nat, createOk: bool)
    requires Valid(cfg, s)
    ensures var r := SwitchFile(cfg, stamp, s, now, createOk);
            Valid(cfg, r.store) && !Clock.Due(now, r.store.switchTime) && r.store.switchTime > s.switchTime
  {
  }

  /** The file a rotation is due to write is named after the window that is
      closing: the stamp is taken one period before the switch time it had. */
  lemma RotatedNameStampsClosingWindow(cfg: Logger, stamp: int -> string, s: Store, now: nat, createOk: bool)
    requires Valid(cfg, s) && Clock.Due(now, s.switchTime)
    ensures var r := SwitchFile(cfg, stamp, s, now, createOk);
            r.effect.path == Join(cfg.dir, cfg.prefix + "." + stamp(s.switchTime - cfg.period) + cfg.suffix)
            && r.store.switchTime - cfg.period >= s.switchTime
  {
  }
}
