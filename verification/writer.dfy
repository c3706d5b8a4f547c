/** The sink's front end and drain: the tri-state writer word, Log and
    Terminate, and the drain loop with its release and re-arm
    (rotate/logger.go:17-83, 129-227).

    Concurrency is modelled sequentially. Terminate and each of the drain's
    swaps is one transition, and so is a whole Log call: its load, push and
    swap happen together. What other callers do while a drain runs is given
    as a script with one entry per pass: the clock reading, the create
    outcome, and windows of events before the drain's release and between
    its release and its re-arm. */
module Writer {
  import opened Outcomes
  import opened Config
  import opened Formatting
  import opened Rotation
  import Clock

  /** The state word: 0 wait, 1 run, 2 close. */
  datatype Phase = Wait | Run | Close

  datatype Cased = Cased(ok: bool, next: Phase)

  /** Atomic compare-and-swap on the state word. */
  function CompareAndSwap(cur: Phase, expected: Phase, desired: Phase): (r: Cased)
    ensures r.ok <==> cur == expected
    ensures r.next == (if r.ok then desired else cur)
  {
    if cur == expected then Cased(true, desired) else Cased(false, cur)
  }

  /** The sink: state word, queue of pushed records (oldest first), file
      store, and whether the active file is still open. */
  datatype Sink = Sink(phase: Phase, queue: seq<Record>, store: Store, open: bool)

  /** A transition and whether it started a drain. */
  datatype Step = Step(sink: Sink, started: bool)

  /** Log (rotate/logger.go:132-141): dropped once closed; otherwise the record
      is pushed, and the caller starts a drain exactly when it wins the 0 to 1
      compare-and-swap. The load, the push and the swap are one step here. */
  function Log(s: Sink, m: Record): (r: Step)
    ensures s.phase == Close ==> r == Step(s, false)
    ensures s.phase != Close ==> r.sink.queue == s.queue + [m]
    ensures r.started <==> s.phase == Wait
    ensures r.sink.phase == Close <==> s.phase == Close
    ensures r.sink.phase != Wait
    ensures r.sink.store == s.store && r.sink.open == s.open
  {
    if s.phase == Close then Step(s, false)
    else
      var pushed := s.(queue := s.queue + [m]);
      var cas := CompareAndSwap(pushed.phase, Wait, Run);
      Step(pushed.(phase := cas.next), cas.ok)
  }

  /** Terminate (rotate/logger.go:143-148): the state word is swapped to 2;
      only a caller that found it at 0 starts the final drain, since a running
      drain will notice the change itself. */
  function Terminate(s: Sink): (r: Step)
    ensures r.sink.phase == Close
    ensures r.sink.queue == s.queue && r.sink.store == s.store && r.sink.open == s.open
    ensures r.started <==> s.phase == Wait
  {
    var prev := s.phase;
    Step(s.(phase := Close), prev == Wait)
  }

  /** What another caller does: log a record or terminate the sink. */
  datatype Event = Push(record: Record) | Stop

  /** The records of the pushes before the first terminate. */
  function PushesBeforeStop(evs: seq<Event>): seq<Record>
  {
    if |evs| == 0 then []
    else match evs[0]
      case Stop => []
      case Push(m) => [m] + PushesBeforeStop(evs[1..])
  }

  predicate HasStop(evs: seq<Event>)
  {
    exists i :: 0 <= i < |evs| && evs[i].Stop?
  }

  /** One call by another caller. */
  function Call(s: Sink, ev: Event): (r: Step)
    ensures r.sink.queue == (if s.phase != Close && ev.Push? then s.queue + [ev.record] else s.queue)
    ensures r.sink.phase == (if s.phase == Close || ev.Stop? then Close else Run)
    ensures r.started <==> s.phase == Wait
    ensures r.sink.store == s.store && r.sink.open == s.open
    ensures s.phase == Close ==> r == Step(s, false)
  {
    match ev
    case Push(m) => Log(s, m)
    case Stop => Terminate(s)
  }

  /** After a run of calls: the sink, the records accepted into the queue and
      how many drains the calls started. */
  datatype Applied = Applied(sink: Sink, accepted: seq<Record>, started: nat)

  /** A run of calls in order. Accepted are exactly the pushes made before the
      sink was closed; at most one call starts a drain, and only from the wait
      state, so a drain in progress is never joined by a second; a closed sink
      ignores everything. */
  function Apply(s: Sink, evs: seq<Event>): (r: Applied)
    ensures r.sink.queue == s.queue + r.accepted
    ensures r.accepted == (if s.phase == Close then [] else PushesBeforeStop(evs))
    ensures r.sink.store == s.store && r.sink.open == s.open
    ensures r.started <= 1
    ensures r.started == 1 <==> s.phase == Wait && |evs| > 0
    ensures r.sink.phase == Wait <==> s.phase == Wait && |evs| == 0
    ensures r.sink.phase == Close <==> s.phase == Close || HasStop(evs)
    ensures s.phase == Close ==> r == Applied(s, [], 0)
    decreases |evs|
  {
    if |evs| == 0 then Applied(s, [], 0)
    else
      var step := Call(s, evs[0]);
      var rest := Apply(step.sink, evs[1..]);
      HasStopCons(evs);
      var mine := if s.phase != Close && evs[0].Push? then [evs[0].record] else [];
      Applied(rest.sink, mine + rest.accepted, (if step.started then 1 else 0) + rest.started)
  }

  lemma HasStopCons(evs: seq<Event>)
    requires |evs| > 0
    ensures HasStop(evs) <==> evs[0].Stop? || HasStop(evs[1..])
  {
    if HasStop(evs[1..]) {
      var i :| 0 <= i < |evs[1..]| && evs[1..][i].Stop?;
      assert evs[i + 1].Stop?;
    }
    if HasStop(evs) && !evs[0].Stop? {
      var i :| 0 <= i < |evs| && evs[i].Stop?;
      assert evs[1..][i - 1].Stop?;
    }
  }

  /** After Terminate every later call is ignored: the sink is never written
      to again by anyone but a drain already entitled to. */
  lemma TerminateIsFinal(s: Sink, evs: seq<Event>)
    ensures var t := Terminate(s).sink;
            Apply(t, evs) == Applied(t, [], 0)
  {
  }

  /** The renderings that are outside this model: the file-name stamp and the
      line time format. */
  datatype Env = Env(fileStamp: int -> string, lineStamp: int -> string)

  /** One pass of the drain as the world sees it: the clock reading taken at
      the top of the pass (rotate/logger.go:154), whether creating a rotation
      target would succeed, and what other callers do before the drain's
      release and between its release and its re-arm. */
  datatype Round = Round(now: nat, createOk: bool, beforeRelease: seq<Event>, afterRelease: seq<Event>)

  /** No other caller acts during the pass. */
  predicate Quiet(rnd: Round)
  {
    rnd.beforeRelease == [] && rnd.afterRelease == []
  }

  /** How a drain call ends: it released the writer with nothing queued; it
      released it and another caller took over; or it found the sink
      terminated and closed the file. */
  datatype Exit = Idle | Yielded | Closed

  /** How a closing drain treats records still queued: as the source does
      (leaves them), or popping and writing them first. */
  datatype Policy = AsWritten | FlushOnClose

  /** The outcome of one pass; no exit means the drain re-armed. */
  datatype Pass = Pass(sink: Sink, carry: Carry, effects: seq<Effect>, written: seq<Record>,
                       accepted: seq<Record>, started: nat, exit: Option<Exit>)

  /** Rotation if due, at the top of every pass (rotate/logger.go:154-156):
      the rotation step runs exactly when the pass's clock reading is past the
      switch time, and otherwise the store is untouched. */
  function RotateIfDue(cfg: Logger, env: Env, now: nat, createOk: bool, st: Store): (r: (Store, seq<Effect>))
    requires Rotation.Valid(cfg, st)
    ensures Clock.Due(now, st.switchTime) ==>
              var x := SwitchFile(cfg, env.fileStamp, st, now, createOk);
              r == (x.store, [x.effect])
    ensures !Clock.Due(now, st.switchTime) ==> r == (st, [])
    ensures |r.1| == (if Clock.Due(now, st.switchTime) then 1 else 0)
    ensures Rotation.Valid(cfg, r.0) && !Clock.Due(now, r.0.switchTime)
    ensures ArchivedLines(r.1) + r.0.active == st.active
  {
    if Clock.Due(now, st.switchTime) then
      var x := SwitchFile(cfg, env.fileStamp, st, now, createOk);
      SwitchFileKeepsLines(cfg, env.fileStamp, st, now, createOk);
      (x.store, [x.effect])
    else
      (st, [])
  }

  /** How a drain call hands the writer on, given whether the file was open
      when it started: it either still holds the writer (re-armed, no exit),
      or left the state word at 0 with nothing queued, or exactly one other
      drain was started meanwhile, or it closed the terminated sink itself.
      Exactly one drain closes a terminated sink: this one, or the one that
      was started. */
  predicate HandsOver(wasOpen: bool, r: Pass)
  {
    && r.started <= 1
    && (r.exit.None? ==> r.sink.phase == Run && r.started == 0 && r.sink.open == wasOpen)
    && (r.exit == Some(Closed) ==> !r.sink.open && r.sink.phase == Close && r.started == 0)
    && (r.exit != Some(Closed) ==> r.sink.open == wasOpen)
    && (r.exit == Some(Yielded) ==> r.started == 1)
    && (r.exit == Some(Idle) ==> r.sink.queue == [])
    && (r.sink.phase == Wait ==> r.exit == Some(Idle) && r.started == 0)
    && (r.sink.phase == Run && r.exit.Some? ==> r.started == 1)
    && (r.sink.phase == Close ==> (r.exit == Some(Closed) <==> r.started == 0))
  }

  /** The first half of a pass (rotate/logger.go:153-208): rotate if due,
      then pop every queued record and append its line to the active file
      that the rotation left, so the new lines never reach the archive. */
  function PopAll(cfg: Logger, env: Env, now: nat, createOk: bool, s: Sink, c: Carry): (r: Pass)
    requires Rotation.Valid(cfg, s.store)
    ensures var rot := RotateIfDue(cfg, env, now, createOk, s.store);
            && r.effects == rot.1
            && r.sink.store == rot.0.(active := rot.0.active + Render(cfg, env.lineStamp, s.queue, c).lines)
    ensures r.sink == s.(queue := [], store := r.sink.store)
    ensures r.written == s.queue && r.accepted == [] && r.started == 0 && r.exit.None?
    ensures ArchivedLines(r.effects) + r.sink.store.active
            == s.store.active + Render(cfg, env.lineStamp, s.queue, c).lines
    ensures r.carry == Render(cfg, env.lineStamp, s.queue, c).carry
    ensures Rotation.Valid(cfg, r.sink.store) && !Clock.Due(now, r.sink.store.switchTime)
  {
    var rot := RotateIfDue(cfg, env, now, createOk, s.store);
    var out := Render(cfg, env.lineStamp, s.queue, c);
    AppendAssoc(ArchivedLines(rot.1), rot.0.active, out.lines);
    Pass(s.(queue := [], store := rot.0.(active := rot.0.active + out.lines)), out.carry, rot.1,
         s.queue, [], 0, None)
  }

  /** The drain finds the sink terminated (rotate/logger.go:210-215): the file
      is closed. As written, records still queued stay queued; under
      FlushOnClose they are popped and written first. */
  function CloseTerminated(policy: Policy, cfg: Logger, stamp: int -> string, x: Sink, c: Carry,
                           accepted: seq<Record>): (r: Pass)
    requires x.phase == Close && x.queue == accepted
    ensures r.exit == Some(Closed) && !r.sink.open && r.sink.phase == Close && r.started == 0
    ensures r.written + r.sink.queue == r.accepted && r.accepted == accepted && r.effects == []
    ensures r.sink.store == x.store.(active := x.store.active + Render(cfg, stamp, r.written, c).lines)
    ensures r.carry == Render(cfg, stamp, r.written, c).carry
    ensures policy == AsWritten ==> r.written == []
    ensures policy == FlushOnClose ==> r.sink.queue == []
  {
    if policy == FlushOnClose then
      var late := Render(cfg, stamp, x.queue, c);
      var st := x.store.(active := x.store.active + late.lines);
      Pass(x.(queue := [], store := st, open := false), late.carry, [], x.queue, accepted, 0, Some(Closed))
    else
      assert x.store.active + Render(cfg, stamp, [], c).lines == x.store.active;
      Pass(x.(open := false), c, [], [], accepted, 0, Some(Closed))
  }

  /** After a successful 1 to 0 swap (rotate/logger.go:217-227): other callers
      act; with nothing queued the drain stops, otherwise it re-arms with a
      0 to 1 swap, which fails only when one of those callers started a drain. */
  function Rearm(x: Sink, c: Carry, evs: seq<Event>, before: seq<Record>): (r: Pass)
    requires x.phase == Wait && x.queue == before
    ensures r.written == [] && r.carry == c && r.effects == []
    ensures r.sink.queue == r.accepted
    ensures r.sink.store == x.store && r.sink.open == x.open
    ensures HandsOver(x.open, r)
    ensures r.exit != Some(Closed)
    ensures |x.queue| == 0 && |evs| == 0 ==> r.exit == Some(Idle)
    ensures r.accepted == before + PushesBeforeStop(evs)
    ensures r.started == (if |evs| > 0 then 1 else 0)
    ensures r.sink.phase == Close <==> HasStop(evs)
  {
    var w := Apply(x, evs);
    var accepted := before + w.accepted;
    if |w.sink.queue| == 0 then
      Pass(w.sink, c, [], [], accepted, w.started, Some(Idle))
    else
      var rearm := CompareAndSwap(w.sink.phase, Wait, Run);
      if rearm.ok then
        Pass(w.sink.(phase := rearm.next), c, [], [], accepted, 0, None)
      else
        Pass(w.sink, c, [], [], accepted, w.started, Some(Yielded))
  }

  /** The records other callers get into the queue during a pass that finds
      the writer in `phase`: none once it is closed; otherwise those logged
      before the first Terminate of the pass's first window, and, when that
      window has no Terminate, those logged before the first Terminate of the
      second. */
  function Accepted(phase: Phase, rnd: Round): seq<Record>
  {
    if phase == Close then []
    else PushesBeforeStop(rnd.beforeRelease)
           + (if HasStop(rnd.beforeRelease) then [] else PushesBeforeStop(rnd.afterRelease))
  }

  /** Drains other callers start during such a pass: one exactly when the
      release succeeded and someone logged after it, since the first such
      call swaps 0 to 1. */
  function Started(phase: Phase, rnd: Round): nat
  {
    if phase == Run && !HasStop(rnd.beforeRelease) && rnd.afterRelease != [] then 1 else 0
  }

  /** The second half of a pass (rotate/logger.go:210-227), starting from an
      empty queue: other callers act, then the drain tries the 1 to 0 swap
      and either closes the terminated sink or re-arms. */
  function HandBack(policy: Policy, cfg: Logger, stamp: int -> string, d: Sink, c: Carry, rnd: Round): (r: Pass)
    requires d.queue == [] && d.phase != Wait
    ensures r.written + r.sink.queue == r.accepted
    ensures r.sink.store == d.store.(active := d.store.active + Render(cfg, stamp, r.written, c).lines)
    ensures r.carry == Render(cfg, stamp, r.written, c).carry
    ensures r.effects == []
    ensures HandsOver(d.open, r)
    ensures d.phase == Close ==> r.exit == Some(Closed) && r.accepted == []
    ensures policy == AsWritten ==> r.written == []
    ensures policy == FlushOnClose && r.exit == Some(Closed) ==> r.sink.queue == []
    ensures !HasStop(rnd.beforeRelease) && d.phase == Run ==> r.exit != Some(Closed)
    ensures Quiet(rnd) ==> r.exit.Some?
    ensures r.accepted == Accepted(d.phase, rnd)
    ensures r.exit == Some(Closed) <==> d.phase == Close || HasStop(rnd.beforeRelease)
    ensures r.started == Started(d.phase, rnd)
  {
    var w1 := Apply(d, rnd.beforeRelease);
    var release := CompareAndSwap(w1.sink.phase, Run, Wait);
    if !release.ok then
      CloseTerminated(policy, cfg, stamp, w1.sink, c, w1.accepted)
    else
      assert Render(cfg, stamp, [], c).lines == [];
      Rearm(w1.sink.(phase := release.next), c, rnd.afterRelease, w1.accepted)
  }

  /** One pass from the `next` label to the end of the drain
      (rotate/logger.go:153-227), with the clock reading and create outcome
      of `rnd`. Records written plus records left queued are the records that
      were queued plus those accepted meanwhile, in order; archived lines plus
      active lines are the old active lines plus the lines of the records
      written; the pass rotates at most once, and only when its clock reading
      is past the switch time; and ownership passes on cleanly: on every way
      out either this drain still holds the writer (re-armed), or the state
      word is at 0 with nothing queued, or exactly one other drain was
      started, or this drain closed the terminated sink. */
  function DrainPass(policy: Policy, cfg: Logger, env: Env, s: Sink, c: Carry, rnd: Round): (r: Pass)
    requires Rotation.Valid(cfg, s.store) && s.phase != Wait
    ensures r.written + r.sink.queue == s.queue + r.accepted
    ensures ArchivedLines(r.effects) + r.sink.store.active
            == s.store.active + Render(cfg, env.lineStamp, r.written, c).lines
    ensures r.carry == Render(cfg, env.lineStamp, r.written, c).carry
    ensures Rotation.Valid(cfg, r.sink.store) && !Clock.Due(rnd.now, r.sink.store.switchTime)
    ensures |r.effects| <= 1
    ensures !Clock.Due(rnd.now, s.store.switchTime) ==>
              r.effects == [] && r.sink.store.switchTime == s.store.switchTime
    ensures HandsOver(s.open, r)
    ensures s.phase == Close ==> r.exit == Some(Closed) && r.accepted == []
    ensures policy == AsWritten ==> r.written == s.queue
    ensures policy == FlushOnClose && r.exit == Some(Closed) ==> r.sink.queue == []
    ensures !HasStop(rnd.beforeRelease) && s.phase == Run ==> r.exit != Some(Closed)
    ensures Quiet(rnd) ==> r.exit.Some?
    ensures r.accepted == Accepted(s.phase, rnd)
    ensures r.exit == Some(Closed) <==> s.phase == Close || HasStop(rnd.beforeRelease)
    ensures r.started == Started(s.phase, rnd)
  {
    var a := PopAll(cfg, env, rnd.now, rnd.createOk, s, c);
    var b := HandBack(policy, cfg, env.lineStamp, a.sink, a.carry, rnd);
    RenderAppend(cfg, env.lineStamp, s.queue, b.written, c);
    AppendAssoc(s.queue, b.written, b.sink.queue);
    ghost var archived := ArchivedLines(a.effects);
    ghost var r1 := Render(cfg, env.lineStamp, s.queue, c).lines;
    ghost var r2 := Render(cfg, env.lineStamp, b.written, a.carry).lines;
    assert b.sink.store.active == a.sink.store.active + r2;
    AppendAssoc(archived, a.sink.store.active, r2);
    AppendAssoc(s.store.active, r1, r2);
    Pass(b.sink, b.carry, a.effects, s.queue + b.written, b.accepted, b.started, b.exit)
  }

  /** The rotation a pass makes is the one RotateIfDue makes at the pass's
      clock reading. */
  lemma PassRotation(policy: Policy, cfg: Logger, env: Env, s: Sink, c: Carry, rnd: Round)
    requires Rotation.Valid(cfg, s.store) && s.phase != Wait
    ensures var r := DrainPass(policy, cfg, env, s, c, rnd);
            var rot := RotateIfDue(cfg, env, rnd.now, rnd.createOk, s.store);
            r.effects == rot.1 && r.sink.store.switchTime == rot.0.switchTime
  {
  }

  /** The result of a whole drain call, with the number of passes it made and
      the clock reading of its last pass. */
  datatype Drained = Drained(sink: Sink, exit: Exit, effects: seq<Effect>, written: seq<Record>,
                             accepted: seq<Record>, started: nat, passes: nat, lastNow: nat)

  /** HandsOver for a finished drain call: the writer is left to nobody (0,
      nothing queued), to exactly one other drain, or the sink is closed by
      this call; a terminated sink is closed by exactly one drain. */
  predicate Settled(wasOpen: bool, d: Drained)
  {
    && d.started <= 1
    && (d.exit == Closed ==> !d.sink.open && d.sink.phase == Close && d.started == 0)
    && (d.exit != Closed ==> d.sink.open == wasOpen)
    && (d.exit == Yielded ==> d.started == 1)
    && (d.exit == Idle ==> d.sink.queue == [])
    && (d.sink.phase == Wait ==> d.exit == Idle && d.started == 0)
    && (d.sink.phase == Run ==> d.started == 1)
    && (d.sink.phase == Close ==> (d.exit == Closed <==> d.started == 0))
  }

  /** No caller terminates the sink while the drain still holds the writer. */
  predicate NoStopWhileRunning(rounds: seq<Round>)
  {
    forall k :: 0 <= k < |rounds| ==> !HasStop(rounds[k].beforeRelease)
  }

  /** No pass's clock reading is past `switchTime`. */
  predicate NeverDue(rounds: seq<Round>, switchTime: nat)
  {
    forall k :: 0 <= k < |rounds| ==> !Clock.Due(rounds[k].now, switchTime)
  }

  /** One call of the drain (rotate/logger.go:150-227): passes, each jumping
      back to `next` after a successful re-arm, with `rounds[k]` the clock
      reading, create outcome and other callers' actions of pass k (once the
      script runs out: the last reading, and nobody else acting). The
      annotations carry from pass to pass. Every record accepted is written
      in queue order or still queued; no line is lost across rotations; the
      file store stays valid; and the writer is handed on as Settled says.
      DrainRotatesAtMostOncePerPass and DrainRotatesOnlyWhenDue state when
      the call rotates. */
  function Drain(policy: Policy, cfg: Logger, env: Env, s: Sink, c: Carry, rounds: seq<Round>): (d: Drained)
    requires Rotation.Valid(cfg, s.store) && s.phase != Wait && |rounds| > 0
    ensures d.written + d.sink.queue == s.queue + d.accepted
    ensures ArchivedLines(d.effects) + d.sink.store.active
            == s.store.active + Render(cfg, env.lineStamp, d.written, c).lines
    ensures Rotation.Valid(cfg, d.sink.store)
    ensures 1 <= d.passes
    ensures !Clock.Due(d.lastNow, d.sink.store.switchTime) && (|rounds| == 1 ==> d.lastNow == rounds[0].now)
    ensures Settled(s.open, d)
    ensures s.phase == Close ==> d.exit == Closed && d.accepted == []
    ensures policy == FlushOnClose && d.exit == Closed ==> d.sink.queue == []
    ensures policy == AsWritten && s.phase == Close ==> d.sink.queue == []
    ensures NoStopWhileRunning(rounds) && s.phase == Run ==> d.exit != Closed
    decreases Remaining(rounds)
  {
    var rnd := rounds[0];
    var p := DrainPass(policy, cfg, env, s, c, rnd);
    if p.exit.Some? then
      Drained(p.sink, p.exit.value, p.effects, p.written, p.accepted, p.started, 1, rnd.now)
    else
      var more := Rest(rounds);
      RestOfScript(rounds, s.store.switchTime);
      var d := Drain(policy, cfg, env, p.sink, p.carry, more);
      ChainLines(cfg, env.lineStamp, s.store.active, c, p.effects, p.written, p.sink.store.active,
                 d.effects, d.written, d.sink.store.active);
      ChainRecords(s.queue, p.written, p.sink.queue, p.accepted, d.written, d.sink.queue, d.accepted);
      Drained(d.sink, d.exit, p.effects + d.effects, p.written + d.written, p.accepted + d.accepted,
              d.started, 1 + d.passes, d.lastNow)
  }

  /** A drain call re-reads the clock on every pass, and each pass rotates at
      most once. */
  lemma {:induction false} DrainRotatesAtMostOncePerPass(policy: Policy, cfg: Logger, env: Env,
                                                         s: Sink, c: Carry, rounds: seq<Round>)
    requires Rotation.Valid(cfg, s.store) && s.phase != Wait && |rounds| > 0
    ensures var d := Drain(policy, cfg, env, s, c, rounds);
            |d.effects| <= d.passes
    decreases Remaining(rounds)
  {
    var p := DrainPass(policy, cfg, env, s, c, rounds[0]);
    DrainUnfold(policy, cfg, env, s, c, rounds);
    if p.exit.None? {
      RestOfScript(rounds, s.store.switchTime);
      DrainRotatesAtMostOncePerPass(policy, cfg, env, p.sink, p.carry, Rest(rounds));
    }
  }

  /** A drain call whose passes never read a clock past the switch time does
      not rotate at all. */
  lemma {:induction false} DrainRotatesOnlyWhenDue(policy: Policy, cfg: Logger, env: Env,
                                                   s: Sink, c: Carry, rounds: seq<Round>)
    requires Rotation.Valid(cfg, s.store) && s.phase != Wait && |rounds| > 0
    requires NeverDue(rounds, s.store.switchTime)
    ensures var d := Drain(policy, cfg, env, s, c, rounds);
            d.effects == [] && d.sink.store.switchTime == s.store.switchTime
    decreases Remaining(rounds)
  {
    var p := DrainPass(policy, cfg, env, s, c, rounds[0]);
    DrainUnfold(policy, cfg, env, s, c, rounds);
    assert !Clock.Due(rounds[0].now, s.store.switchTime);
    if p.exit.None? {
      RestOfScript(rounds, s.store.switchTime);
      DrainRotatesOnlyWhenDue(policy, cfg, env, p.sink, p.carry, Rest(rounds));
    }
  }

  /** A drain call is its first pass, followed, when that pass re-armed, by
      the drain of the rest of the script: the records it accepted are those
      of its first pass and then those of the rest. */
  lemma DrainUnfold(policy: Policy, cfg: Logger, env: Env, s: Sink, c: Carry, rounds: seq<Round>)
    requires Rotation.Valid(cfg, s.store) && s.phase != Wait && |rounds| > 0
    ensures var p := DrainPass(policy, cfg, env, s, c, rounds[0]);
            var d0 := Drain(policy, cfg, env, s, c, rounds);
            && (p.exit.Some? ==>
                  && d0.effects == p.effects && d0.sink == p.sink && d0.passes == 1 && d0.lastNow == rounds[0].now
                  && d0.accepted == p.accepted && d0.started == p.started && d0.exit == p.exit.value)
            && (p.exit.None? ==>
                  var d := Drain(policy, cfg, env, p.sink, p.carry, Rest(rounds));
                  && d0.effects == p.effects + d.effects && d0.sink == d.sink
                  && d0.passes == 1 + d.passes && d0.lastNow == d.lastNow
                  && d0.accepted == p.accepted + d.accepted && d0.started == d.started && d0.exit == d.exit)
  {
  }

  /** The script of the passes after the first; once it runs out, a pass
      with the last clock reading and nobody else acting. */
  function Rest(rounds: seq<Round>): (more: seq<Round>)
    requires |rounds| > 0
    ensures |more| > 0
  {
    if |rounds| > 1 then rounds[1..] else [Round(rounds[0].now, rounds[0].createOk, [], [])]
  }

  /** A bound on the passes left: a drain re-arms only after a pass in which
      another caller acted, and the passes past the script are quiet. */
  function Remaining(rounds: seq<Round>): nat
    requires |rounds| > 0
  {
    |rounds| + (if Quiet(rounds[|rounds| - 1]) then 0 else 1)
  }

  /** The window properties carry over to the rest of the script, and it is
      shorter unless the only pass left was quiet. */
  lemma RestOfScript(rounds: seq<Round>, switchTime: nat)
    requires |rounds| > 0
    ensures |rounds| > 1 || !Quiet(rounds[0]) ==> Remaining(Rest(rounds)) < Remaining(rounds)
    ensures NoStopWhileRunning(rounds) ==> NoStopWhileRunning(Rest(rounds))
    ensures NeverDue(rounds, switchTime) ==> NeverDue(Rest(rounds), switchTime)
  {
    var more := Rest(rounds);
    if |rounds| > 1 {
      forall j | 0 <= j < |more|
        ensures more[j] == rounds[j + 1]
      {
      }
      assert more[|more| - 1] == rounds[|rounds| - 1];
    } else {
      assert !HasStop(more[0].beforeRelease);
      assert more[0].now == rounds[0].now;
    }
  }


  /** The drain as the source writes it. A drain that a terminate started
      writes everything queued before closing. */
  function Write(cfg: Logger, env: Env, s: Sink, rounds: seq<Round>): (d: Drained)
    requires Rotation.Valid(cfg, s.store) && s.phase != Wait && |rounds| > 0
    ensures d.written + d.sink.queue == s.queue + d.accepted
    ensures ArchivedLines(d.effects) + d.sink.store.active
            == s.store.active + Render(cfg, env.lineStamp, d.written, NoCarry).lines
    ensures Settled(s.open, d)
    ensures s.phase == Close ==> d.exit == Closed && d.written == s.queue && d.sink.queue == []
    ensures NoStopWhileRunning(rounds) && d.exit == Closed ==> d.sink.queue == []
  {
    Drain(AsWritten, cfg, env, s, NoCarry, rounds)
  }

  /** The drain with the closing path corrected: a drain that finds the sink
      terminated first writes whatever is still queued, so every record the
      sink accepted is written before the file is closed. */
  function WriteFlushing(cfg: Logger, env: Env, s: Sink, rounds: seq<Round>): (d: Drained)
    requires Rotation.Valid(cfg, s.store) && s.phase != Wait && |rounds| > 0
    ensures d.written + d.sink.queue == s.queue + d.accepted
    ensures ArchivedLines(d.effects) + d.sink.store.active
            == s.store.active + Render(cfg, env.lineStamp, d.written, NoCarry).lines
    ensures Settled(s.open, d)
    ensures d.exit == Closed ==> d.written == s.queue + d.accepted && d.sink.queue == []
  {
    Drain(FlushOnClose, cfg, env, s, NoCarry, rounds)
  }

  /** A record pushed while a drain is finishing, followed by a terminate
      before the drain's 1 to 0 swap: the drain as written closes the file with
      the record accepted but never written. */
  lemma LateRecordLostAsWritten(cfg: Logger, env: Env, now: nat, m: Record)
    requires Rotation.Valid(cfg, Store(Clock.Minute * cfg.period, [], []))
    requires now <= Clock.Minute * cfg.period
    ensures var s := Sink(Run, [], Store(Clock.Minute * cfg.period, [], []), true);
            var d := Write(cfg, env, s, [Round(now, true, [Push(m), Stop], [])]);
            d.exit == Closed && d.accepted == [m] && d.written == [] && d.sink.queue == [m]
  {
    assert HasStop([Push(m), Stop]) by { assert [Push(m), Stop][1].Stop?; }
    assert PushesBeforeStop([Push(m), Stop]) == [m];
  }

  /** The same calls with the corrected drain: the record is written before the close. */
  lemma LateRecordWrittenWhenFlushing(cfg: Logger, env: Env, now: nat, m: Record)
    requires Rotation.Valid(cfg, Store(Clock.Minute * cfg.period, [], []))
    requires now <= Clock.Minute * cfg.period
    ensures var s := Sink(Run, [], Store(Clock.Minute * cfg.period, [], []), true);
            var d := WriteFlushing(cfg, env, s, [Round(now, true, [Push(m), Stop], [])]);
            d.exit == Closed && d.accepted == [m] && d.written == [m] && d.sink.queue == []
  {
    assert HasStop([Push(m), Stop]) by { assert [Push(m), Stop][1].Stop?; }
    assert PushesBeforeStop([Push(m), Stop]) == [m];
  }

  datatype CreateError = DirectoryFailed | OpenFailed

  datatype Instance = Instance(cfg: Logger, sink: Sink)

  /** Construction (rotate/logger.go:17-83). The directory and the active file
      are created or opened first (`dirOk`, `openOk` say whether that worked);
      either failure is returned. An existing active file is opened for
      appending, so its lines (`existing`) stay. The options are normalised,
      the first switch time is the end of the window `now` falls in, and the
      sink starts waiting with nothing queued or kept. */
  function Create(opts: Options, exeBase: string, now: nat, existing: seq<string>,
                  dirOk: bool, openOk: bool): (r: Result<Instance, CreateError>)
    ensures !dirOk ==> r == Err(DirectoryFailed)
    ensures dirOk && !openOk ==> r == Err(OpenFailed)
    ensures r.Ok? <==> dirOk && openOk
    ensures r.Ok? ==> Config.Valid(r.value.cfg) && Rotation.Valid(r.value.cfg, r.value.sink.store)
    ensures r.Ok? ==> r.value.cfg == Normalize(opts, exeBase)
    ensures r.Ok? ==> var sw := r.value.sink.store.switchTime;
                      now < sw <= now + r.value.cfg.period && Clock.Aligned(sw, r.value.cfg.period)
    ensures r.Ok? ==> r.value.sink.phase == Wait && r.value.sink.queue == [] && r.value.sink.open
    ensures r.Ok? ==> r.value.sink.store.active == existing && r.value.sink.store.retained == []
  {
    if !dirOk then Err(DirectoryFailed)
    else if !openOk then Err(OpenFailed)
    else
      var cfg := Normalize(opts, exeBase);
      Ok(Instance(cfg, Sink(Wait, [], Store(Clock.InitialSwitch(now, cfg.period), existing, []), true)))
  }

  /** From a fresh sink built at `t0`: the first Log starts a drain, and
      that drain, with no other caller about and its clock reading `now` not
      past the first switch time, appends exactly the record's line after the
      existing lines and leaves the writer waiting with nothing queued. */
  lemma FirstRecordReachesFile(opts: Options, exeBase: string, existing: seq<string>, t0: nat,
                               env: Env, now: nat, createOk: bool, m: Record)
    requires now <= Clock.InitialSwitch(t0, ClampPeriod(opts.period))
    ensures Create(opts, exeBase, t0, existing, true, true).Ok?
    ensures var inst := Create(opts, exeBase, t0, existing, true, true).value;
            var step := Log(inst.sink, m);
            step.started &&
            var d := Write(inst.cfg, env, step.sink, [Round(now, createOk, [], [])]);
            && d.exit == Idle && d.written == [m] && d.effects == [] && d.passes == 1
            && d.sink.phase == Wait && d.sink.queue == []
            && d.sink.store.active == existing + [Line(inst.cfg, env.lineStamp, m, Annotate(inst.cfg, NoCarry, m.source))]
  {
    var inst := Create(opts, exeBase, t0, existing, true, true).value;
    var cfg := inst.cfg;
    var st := Store(Clock.InitialSwitch(t0, cfg.period), existing, []);
    assert cfg.period == ClampPeriod(opts.period);
    assert Log(inst.sink, m).sink == Sink(Run, [m], st, true);
    var rnd := Round(now, createOk, [], []);
    QuietPassWritesOne(cfg, env, st, m, NoCarry, now, createOk);
    var q := DrainPass(AsWritten, cfg, env, Sink(Run, [m], st, true), NoCarry, rnd);
    assert Write(cfg, env, Sink(Run, [m], st, true), [rnd]) == Drained(q.sink, Idle, q.effects, q.written, q.accepted, q.started, 1, now);
  }

  /** A pass with one record queued, nobody else acting and a clock reading
      not past the switch time writes that record's line after the active
      lines and leaves the writer waiting. */
  lemma QuietPassWritesOne(cfg: Logger, env: Env, st: Store, m: Record, c: Carry,
                           now: nat, createOk: bool)
    requires Rotation.Valid(cfg, st) && !Clock.Due(now, st.switchTime)
    ensures var q := DrainPass(AsWritten, cfg, env, Sink(Run, [m], st, true), c,
                               Round(now, createOk, [], []));
            && q.exit == Some(Idle) && q.written == [m] && q.effects == []
            && q.sink == Sink(Wait, [], st.(active := st.active + [Line(cfg, env.lineStamp, m, Annotate(cfg, c, m.source))]), true)
  {
    PassRotation(AsWritten, cfg, env, Sink(Run, [m], st, true), c, Round(now, createOk, [], []));
    RenderCons(cfg, env.lineStamp, [m], c);
    assert [m][1..] == [];
    assert Render(cfg, env.lineStamp, [], Render(cfg, env.lineStamp, [m], c).carry).lines == [];
  }

  /** A busy drain re-reads the clock on every pass: a record pushed before
      the release makes the drain re-arm, and when the second pass's reading
      is past the switch time that pass rotates, archiving the old lines
      before it writes the record. */
  lemma BusyDrainRotatesOnLaterPass(cfg: Logger, env: Env, st: Store, m: Record,
                                    t0: nat, t1: nat, createOk: bool)
    requires Rotation.Valid(cfg, st)
    requires !Clock.Due(t0, st.switchTime) && Clock.Due(t1, st.switchTime)
    ensures var d := Write(cfg, env, Sink(Run, [], st, true),
                           [Round(t0, true, [Push(m)], []), Round(t1, createOk, [], [])]);
            var x := SwitchFile(cfg, env.fileStamp, st, t1, createOk);
            && d.passes == 2 && d.exit == Idle && d.written == [m] && d.effects == [x.effect]
            && d.sink.store.switchTime == x.store.switchTime
  {
    var s := Sink(Run, [], st, true);
    var r0, r1 := Round(t0, true, [Push(m)], []), Round(t1, createOk, [], []);
    BusyFirstPass(cfg, env, st, m, t0);
    var p := DrainPass(AsWritten, cfg, env, s, NoCarry, r0);
    QuietPassRotates(cfg, env, st, m, p.carry, t1, createOk);
    var q := DrainPass(AsWritten, cfg, env, p.sink, p.carry, r1);
    var d2 := Drain(AsWritten, cfg, env, p.sink, p.carry, [r1]);
    assert d2 == Drained(q.sink, Idle, q.effects, q.written, q.accepted, q.started, 1, t1);
    assert Rest([r0, r1]) == [r1];
    assert Write(cfg, env, s, [r0, r1])
        == Drained(d2.sink, d2.exit, p.effects + d2.effects, p.written + d2.written,
                   p.accepted + d2.accepted, d2.started, 1 + d2.passes, d2.lastNow);
  }

  /** The first pass of that drain: nothing to write, the pushed record
      arrives before the release, and the drain re-arms with it queued. */
  lemma BusyFirstPass(cfg: Logger, env: Env, st: Store, m: Record, t0: nat)
    requires Rotation.Valid(cfg, st) && !Clock.Due(t0, st.switchTime)
    ensures var p := DrainPass(AsWritten, cfg, env, Sink(Run, [], st, true), NoCarry,
                               Round(t0, true, [Push(m)], []));
            && p.exit.None? && p.effects == [] && p.written == []
            && p.sink == Sink(Run, [m], st, true)
  {
    assert PushesBeforeStop([Push(m)]) == [m];
    assert Render(cfg, env.lineStamp, [], NoCarry).lines == [];
  }

  /** A pass with the record queued, nobody else acting and a clock reading
      past the switch time rotates once, writes the record and goes idle. */
  lemma QuietPassRotates(cfg: Logger, env: Env, st: Store, m: Record, c: Carry,
                         t1: nat, createOk: bool)
    requires Rotation.Valid(cfg, st) && Clock.Due(t1, st.switchTime)
    ensures var q := DrainPass(AsWritten, cfg, env, Sink(Run, [m], st, true), c,
                               Round(t1, createOk, [], []));
            var x := SwitchFile(cfg, env.fileStamp, st, t1, createOk);
            && q.exit == Some(Idle) && q.written == [m] && q.effects == [x.effect]
            && q.sink.store.switchTime == x.store.switchTime
  {
    PassRotation(AsWritten, cfg, env, Sink(Run, [m], st, true), c, Round(t1, createOk, [], []));
  }

  /** Two stages' line bookkeeping compose: what the first archived and left
      active, followed by what the second made of that. */
  lemma ChainLines(cfg: Logger, stamp: int -> string, active0: seq<string>, c: Carry,
                   e1: seq<Effect>, w1: seq<Record>, active1: seq<string>,
                   e2: seq<Effect>, w2: seq<Record>, active2: seq<string>)
    requires ArchivedLines(e1) + active1 == active0 + Render(cfg, stamp, w1, c).lines
    requires ArchivedLines(e2) + active2
             == active1 + Render(cfg, stamp, w2, Render(cfg, stamp, w1, c).carry).lines
    ensures ArchivedLines(e1 + e2) + active2 == active0 + Render(cfg, stamp, w1 + w2, c).lines
  {
    RenderAppend(cfg, stamp, w1, w2, c);
    ArchivedLinesAppend(e1, e2);
    var archived := ArchivedLines(e1);
    var r1 := Render(cfg, stamp, w1, c).lines;
    var r2 := Render(cfg, stamp, w2, Render(cfg, stamp, w1, c).carry).lines;
    AppendAssoc(archived, ArchivedLines(e2), active2);
    AppendAssoc(archived, active1, r2);
    AppendAssoc(active0, r1, r2);
  }

  /** Two passes' record bookkeeping compose. */
  lemma ChainRecords(q0: seq<Record>, w1: seq<Record>, q1: seq<Record>, a1: seq<Record>,
                     w2: seq<Record>, q2: seq<Record>, a2: seq<Record>)
    requires w1 + q1 == q0 + a1 && w2 + q2 == q1 + a2
    ensures (w1 + w2) + q2 == q0 + (a1 + a2)
  {
    AppendAssoc(w1, w2, q2);
    AppendAssoc(w1, q1, a2);
    AppendAssoc(q0, a1, a2);
  }
}
