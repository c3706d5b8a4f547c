/** Log records and the lines the drain writes for them (rotate/logger.go:151, 158-208). */
module Formatting {
  import opened Levels
  import opened Config
  import Decimal
  import Outcomes

  /** Where a record comes from. The renderings of node names, peers, process
      identifiers, registered names and meta-process identifiers belong to the
      runtime and are carried here as text. A process carries its registered
      name twice: raw, to test for emptiness, and rendered. */
  datatype Source =
    | Node(crc: string)
    | Network(node: string, peer: string)
    | Process(pid: string, name: string, nameText: string, behavior: string)
    | Meta(meta: string)

  /** A record: Unix time in nanoseconds, level, source, and its message
      already expanded from template and arguments. */
  datatype Record = Record(time: int, level: Level, source: Source, message: string)

  /** The name and behavior annotations. The drain declares them once per call
      and only a process record assigns them, so whatever the last process
      record set is printed again for later records of the same call. */
  datatype Carry = Carry(name: string, behavior: string)

  const NoCarry := Carry("", "")

  /** The time column: `%d` of the Unix nanoseconds with no time format,
      otherwise the time formatted with it (`stamp`, outside this model). */
  function TimeText(cfg: Logger, stamp: int -> string, time: int): string
  {
    if cfg.timeFormat == "" then Decimal.Format(time) else stamp(time)
  }

  /** With no time format the time column reads back as the record's Unix
      nanoseconds; with one, it is whatever the stamp prints. */
  lemma TimeTextReadsBack(cfg: Logger, stamp: int -> string, time: int)
    ensures cfg.timeFormat == "" ==> Decimal.Parse(TimeText(cfg, stamp, time)) == Outcomes.Some(time)
    ensures cfg.timeFormat != "" ==> TimeText(cfg, stamp, time) == stamp(time)
  {
    if cfg.timeFormat == "" {
      Decimal.FormatRoundTrip(time);
    }
  }

  /** The source column. */
  function SourceText(src: Source): string
  {
    match src
    case Node(crc) => crc
    case Network(node, peer) => node + "-" + peer
    case Process(pid, _, _, _) => pid
    case Meta(meta) => meta
  }

  /** The source column names where a record came from and nothing else: a
      network record's node and peer can be read back on either side of the
      first hyphen when the node name has none, and a process record shows
      its identifier only, its name and behavior going to the annotations. */
  lemma SourceColumn(src: Source)
    ensures var r := SourceText(src);
            && (src.Network? ==> |r| == |src.node| + 1 + |src.peer| && r[..|src.node|] == src.node
                                 && r[|src.node|] == '-' && r[|src.node| + 1..] == src.peer)
            && (src.Network? && '-' !in src.node ==> FirstHyphen(r) == |src.node|)
            && (src.Process? ==> r == src.pid)
            && (src.Node? ==> r == src.crc)
            && (src.Meta? ==> r == src.meta)
  {
    if src.Network? {
      var r := SourceText(src);
      ThreeParts(src.node, "-", src.peer);
      assert r[..|src.node|] == src.node;
      if '-' !in src.node {
        FirstHyphenAt(r, |src.node|);
      }
    }
  }

  /** The index of the first hyphen in `s`, or `|s|` when it has none. */
  function FirstHyphen(s: string): (i: nat)
    ensures i <= |s|
    ensures i < |s| ==> s[i] == '-'
    ensures forall k :: 0 <= k < i ==> s[k] != '-'
  {
    if |s| == 0 then 0
    else if s[0] == '-' then 0
    else 1 + FirstHyphen(s[1..])
  }

  /** A hyphen at `i` with none before it is the first one. */
  lemma {:induction false} FirstHyphenAt(s: string, i: nat)
    requires i < |s| && s[i] == '-' && '-' !in s[..i]
    ensures FirstHyphen(s) == i
    decreases i
  {
    if i > 0 {
      assert s[0] == s[..i][0];
      assert s[1..][..i - 1] == s[..i][1..];
      FirstHyphenAt(s[1..], i - 1);
    }
  }

  /** The annotations after the drain has looked at a record's source: a
      process record sets the behavior when behaviors are included and the name
      when names are included and the process has one; anything else is left
      as it was. */
  function Annotate(cfg: Logger, c: Carry, src: Source): (r: Carry)
    ensures !src.Process? ==> r == c
    ensures src.Process? && cfg.includeBehavior ==> r.behavior == " " + src.behavior
    ensures src.Process? && cfg.includeName && src.name != "" ==> r.name == " " + src.nameText
    ensures !(src.Process? && cfg.includeBehavior) ==> r.behavior == c.behavior
    ensures !(src.Process? && cfg.includeName && src.name != "") ==> r.name == c.name
  {
    match src
    case Process(_, name, nameText, behavior) =>
      Carry(if cfg.includeName && name != "" then " " + nameText else c.name,
            if cfg.includeBehavior then " " + behavior else c.behavior)
    case _ => c
  }

  /** One output line, `time level sourceNAMEBEHAVIOR: message` and a newline,
      with `c` the annotations in force for this record. */
  function Line(cfg: Logger, stamp: int -> string, m: Record, c: Carry): string
  {
    TimeText(cfg, stamp, m.time) + " " + Tag(cfg.tags, m.level) + " "
      + SourceText(m.source) + c.name + c.behavior + ": " + m.message + "\n"
  }

  /** Every line starts with the time and level columns, has the source
      column and the annotations in the middle, and ends with the message and
      a newline. */
  lemma LineShape(cfg: Logger, stamp: int -> string, m: Record, c: Carry)
    ensures var r := Line(cfg, stamp, m, c);
            var head := TimeText(cfg, stamp, m.time) + " " + Tag(cfg.tags, m.level) + " ";
            var tail := ": " + m.message + "\n";
            && |r| > |head| && r[..|head|] == head
            && |r| > |tail| && r[|r| - |tail|..] == tail
            && |head| <= |r| - |tail|
            && r[|head|..|r| - |tail|] == SourceText(m.source) + c.name + c.behavior
            && r[|r| - 1] == '\n'
  {
    var head := TimeText(cfg, stamp, m.time) + " " + Tag(cfg.tags, m.level) + " ";
    var mid := SourceText(m.source) + c.name + c.behavior;
    var tail := ": " + m.message + "\n";
    assert Line(cfg, stamp, m, c) == head + mid + tail;
    ThreeParts(head, mid, tail);
  }

  /** Each of three concatenated parts can be read back. */
  lemma ThreeParts<T>(h: seq<T>, m: seq<T>, t: seq<T>)
    ensures var r := h + m + t;
            && |r| == |h| + |m| + |t|
            && r[..|h|] == h && r[|r| - |t|..] == t && r[|h|..|h| + |m|] == m
  {
    var r := h + m + t;
    assert r[..|h|] == h;
    assert r[|h|..|h| + |m|] == m;
    assert r[|h| + |m|..] == t;
  }

  datatype Rendered = Rendered(lines: seq<string>, carry: Carry)

  /** The pop loop: records leave the queue front first and each yields one
      line, the annotations flowing from one record to the next. */
  function Render(cfg: Logger, stamp: int -> string, q: seq<Record>, c: Carry): (r: Rendered)
    ensures |r.lines| == |q|
    ensures |q| == 0 ==> r.carry == c
    decreases |q|
  {
    if |q| == 0 then Rendered([], c)
    else
      var c1 := Annotate(cfg, c, q[0].source);
      var rest := Render(cfg, stamp, q[1..], c1);
      Rendered([Line(cfg, stamp, q[0], c1)] + rest.lines, rest.carry)
  }

  /** The annotations in force after a run of records, folded from the back:
      an independent statement of what Render threads from the front. */
  function CarryAfter(cfg: Logger, c: Carry, q: seq<Record>): Carry
    decreases |q|
  {
    if |q| == 0 then c else Annotate(cfg, CarryAfter(cfg, c, q[..|q| - 1]), q[|q| - 1].source)
  }

  lemma {:induction false} CarryAfterCons(cfg: Logger, c: Carry, q: seq<Record>)
    requires |q| > 0
    ensures CarryAfter(cfg, c, q) == CarryAfter(cfg, Annotate(cfg, c, q[0].source), q[1..])
    decreases |q|
  {
    if |q| > 1 {
      var front := q[..|q| - 1];
      CarryAfterCons(cfg, c, front);
      assert front[1..] == q[1..][..|q[1..]| - 1];
      assert front[0] == q[0];
    } else {
      assert q[..0] == [];
      assert q[1..] == [];
    }
  }

  /** Render of a non-empty queue: the front record's line, then the rest. */
  lemma RenderCons(cfg: Logger, stamp: int -> string, q: seq<Record>, c: Carry)
    requires |q| > 0
    ensures var c1 := Annotate(cfg, c, q[0].source);
            var rest := Render(cfg, stamp, q[1..], c1);
            Render(cfg, stamp, q, c) == Rendered([Line(cfg, stamp, q[0], c1)] + rest.lines, rest.carry)
  {
  }

  /** Draining a queue in two goes, the second starting from the annotations
      the first left, writes the same lines as draining it in one. */
  lemma {:induction false} RenderAppend(cfg: Logger, stamp: int -> string,
                                        q1: seq<Record>, q2: seq<Record>, c: Carry)
    ensures var a := Render(cfg, stamp, q1, c);
            var b := Render(cfg, stamp, q2, a.carry);
            Render(cfg, stamp, q1 + q2, c) == Rendered(a.lines + b.lines, b.carry)
    decreases |q1|
  {
    if |q1| == 0 {
      assert q1 + q2 == q2;
    } else {
      var q := q1 + q2;
      var c1 := Annotate(cfg, c, q1[0].source);
      var first := Line(cfg, stamp, q1[0], c1);
      assert q[1..] == q1[1..] + q2 && q[0] == q1[0];
      RenderAppend(cfg, stamp, q1[1..], q2, c1);
      RenderCons(cfg, stamp, q1, c);
      RenderCons(cfg, stamp, q, c);
      var a1 := Render(cfg, stamp, q1[1..], c1);
      var b := Render(cfg, stamp, q2, a1.carry);
      AppendAssoc([first], a1.lines, b.lines);
    }
  }

  lemma AppendAssoc<T>(a: seq<T>, b: seq<T>, c: seq<T>)
    ensures (a + b) + c == a + (b + c)
  {
  }

  /** A drain leaves behind the annotations of the whole queue. */
  lemma {:induction false} RenderCarry(cfg: Logger, stamp: int -> string, q: seq<Record>, c: Carry)
    ensures Render(cfg, stamp, q, c).carry == CarryAfter(cfg, c, q)
    decreases |q|
  {
    if |q| > 0 {
      RenderCarry(cfg, stamp, q[1..], Annotate(cfg, c, q[0].source));
      CarryAfterCons(cfg, c, q);
    }
  }

  /** Line `i` of a drain is the line of record `i`, printed with the
      annotations of the records up to and including it. */
  lemma {:induction false} RenderLineAt(cfg: Logger, stamp: int -> string,
                                        q: seq<Record>, c: Carry, i: nat)
    requires i < |q|
    ensures Render(cfg, stamp, q, c).lines[i] == Line(cfg, stamp, q[i], CarryAfter(cfg, c, q[..i + 1]))
    decreases i
  {
    var c1 := Annotate(cfg, c, q[0].source);
    RenderCons(cfg, stamp, q, c);
    CarryAfterPrefix(cfg, c, q, i);
    if i > 0 {
      RenderLineAt(cfg, stamp, q[1..], c1, i - 1);
    }
  }

  /** The annotations after the first `i + 1` records are those after the
      `i` records following the first, starting from the first's. */
  lemma CarryAfterPrefix(cfg: Logger, c: Carry, q: seq<Record>, i: nat)
    requires i < |q|
    ensures CarryAfter(cfg, c, q[..i + 1]) == CarryAfter(cfg, Annotate(cfg, c, q[0].source), q[1..][..i])
  {
    assert q[..i + 1][0] == q[0];
    assert q[1..][..i] == q[..i + 1][1..];
    CarryAfterCons(cfg, c, q[..i + 1]);
  }

  /** Render agrees with the line-per-record reading of the queue. */
  lemma RenderIsLinePerRecord(cfg: Logger, stamp: int -> string, q: seq<Record>, c: Carry)
    ensures Render(cfg, stamp, q, c).carry == CarryAfter(cfg, c, q)
    ensures forall i :: 0 <= i < |q| ==>
      Render(cfg, stamp, q, c).lines[i] == Line(cfg, stamp, q[i], CarryAfter(cfg, c, q[..i + 1]))
  {
    RenderCarry(cfg, stamp, q, c);
    forall i | 0 <= i < |q|
      ensures Render(cfg, stamp, q, c).lines[i] == Line(cfg, stamp, q[i], CarryAfter(cfg, c, q[..i + 1]))
    {
      RenderLineAt(cfg, stamp, q, c, i);
    }
  }

  /** A process record that sets both annotations prints the same line
      whatever earlier records left behind. */
  lemma FullProcessLineIgnoresCarry(cfg: Logger, stamp: int -> string, m: Record, c: Carry, d: Carry)
    requires cfg.includeName && cfg.includeBehavior
    requires m.source.Process? && m.source.name != ""
    ensures Line(cfg, stamp, m, Annotate(cfg, c, m.source)) == Line(cfg, stamp, m, Annotate(cfg, d, m.source))
  {
  }

  /** The carry-over as written: a meta-process record drained after a named
      process record is printed with that process's name and behavior. */
  lemma CarryOverReachesLaterRecords(cfg: Logger, stamp: int -> string)
    requires cfg.includeName && cfg.includeBehavior
    ensures var p := Record(1, Info, Process("<A.1.2>", "web", "'web'", "handler"), "up");
            var m := Record(2, Info, Meta("Alias#1"), "tick");
            Render(cfg, stamp, [p, m], NoCarry).lines[1]
              == Line(cfg, stamp, m, Carry(" 'web'", " handler"))
  {
    var p := Record(1, Info, Process("<A.1.2>", "web", "'web'", "handler"), "up");
    var m := Record(2, Info, Meta("Alias#1"), "tick");
    var c1 := Annotate(cfg, NoCarry, p.source);
    assert c1 == Carry(" 'web'", " handler");
    assert Annotate(cfg, c1, m.source) == c1;
    assert [p, m][1..] == [m];
    assert Render(cfg, stamp, [m], c1).lines[0] == Line(cfg, stamp, m, c1);
  }
}
