/**
  Accounting of the communication log: every admitted event gets the next
  sequence number, events that do not fit a byte-bounded queue are folded into a
  gap record, and one writer takes lines from the queue until a write fails.
 */
module CommsLog {
  import opened Common

  /** Bounds, and the length of the encoded gap line. */
  datatype Limits = Limits(maxFile: nat, maxQueue: nat, gapBytes: Gap -> nat)

  /** Events first..last were lost; count is kept separately, as the record shows it. */
  datatype Gap = Gap(first: nat, last: nat, count: nat)

  datatype Line = EventLine(sequence: nat, bytes: nat) | GapLine(gap: Gap, bytes: nat)

  datatype Stats = Stats(last: nat, written: nat, gapRecords: nat, lostOverflow: nat, lostInvalid: nat, lostWrite: nat, writeErrors: nat)

  /**
    The logger. `flight` is the line the writer holds; `taken` and `unpaid` are
    history: the lines taken so far, and the bytes of a closing gap, which the
    queue never counted.
   */
  datatype Log = Log(queue: seq<Line>, queueBytes: int, gap: Option<Gap>, closing: bool, failed: bool, stats: Stats,
                     flight: Option<Line>, finished: bool, taken: seq<Line>, unpaid: nat)

  function NewLog(): Log { Log([], 0, None, false, false, Stats(0, 0, 0, 0, 0, 0, 0), None, false, [], 0) }

  function Events(l: Line): nat { if l.EventLine? then 1 else 0 }

  function EventsIn(ls: seq<Line>): nat { if ls == [] then 0 else Events(ls[0]) + EventsIn(ls[1..]) }

  function BytesIn(ls: seq<Line>): nat { if ls == [] then 0 else ls[0].bytes + BytesIn(ls[1..]) }

  function Held(l: Option<Line>): seq<Line> { if l.Some? then [l.value] else [] }

  function WithGap(gap: Option<Gap>, sequence: nat): Gap {
    if gap.None? then Gap(sequence, sequence, 1) else Gap(gap.value.first, sequence, gap.value.count + 1)
  }

  /** The event numbered s.stats.last is lost to a full queue. */
  function Overflowed(s: Log): Log {
    s.(gap := Some(WithGap(s.gap, s.stats.last)), stats := s.stats.(lostOverflow := s.stats.lostOverflow + 1))
  }

  /** One valid event; size is the length of its line, or none if it cannot be encoded. */
  function Emitted(k: Limits, s: Log, size: Option<nat>): Log {
    if s.closing || s.failed then s else
    var s1 := s.(stats := s.stats.(last := s.stats.last + 1));
    if size.None? || size.value > k.maxQueue || size.value > k.maxFile then Overflowed(s1) else
    var gap := if s.gap.Some? then [GapLine(s.gap.value, k.gapBytes(s.gap.value))] else [];
    if s.queueBytes + size.value + BytesIn(gap) > k.maxQueue || BytesIn(gap) > k.maxFile then Overflowed(s1) else
    s1.(queue := s.queue + gap + [EventLine(s1.stats.last, size.value)],
        queueBytes := s.queueBytes + size.value + BytesIn(gap), gap := None)
  }

  function EmitInvalid(s: Log): Log {
    if s.closing || s.failed then s else s.(stats := s.stats.(lostInvalid := s.stats.lostInvalid + 1))
  }

  /** The writer asks for the next line: the queue first, then, when closing, the pending gap. */
  function Take(k: Limits, s: Log): Log {
    if s.flight.Some? || s.finished then s
    else if s.queue != [] then s.(queue := s.queue[1..], flight := Some(s.queue[0]), taken := s.taken + [s.queue[0]])
    else if !s.closing then s
    else if s.gap.Some? then
      var line := GapLine(s.gap.value, k.gapBytes(s.gap.value));
      s.(gap := None, flight := Some(line), taken := s.taken + [line], unpaid := line.bytes)
    else s.(finished := true)
  }

  function Wrote(s: Log): Log {
    match s.flight
    case None => s
    case Some(line) =>
      s.(flight := None, queueBytes := s.queueBytes - line.bytes,
         stats := if line.GapLine? then s.stats.(gapRecords := s.stats.gapRecords + 1) else s.stats.(written := s.stats.written + 1))
  }

  /** Writing a line, or closing the file at the end, failed: what was held is lost, and nothing more is admitted. */
  function Failed(s: Log): Log {
    if s.flight.None? && (!s.finished || s.failed) then s else
    s.(failed := true, closing := true, finished := true, flight := None, queue := [], queueBytes := 0, gap := None, unpaid := 0,
       stats := s.stats.(writeErrors := s.stats.writeErrors + 1,
                         lostWrite := s.stats.lostWrite + EventsIn(Held(s.flight)) + EventsIn(s.queue)))
  }

  function Closed(s: Log): Log { s.(closing := true) }

  datatype Op = EmitOp(size: Option<nat>) | InvalidOp | TakeOp | WroteOp | FailedOp | CloseOp

  function Step(k: Limits, s: Log, op: Op): Log {
    match op
    case EmitOp(size) => Emitted(k, s, size)
    case InvalidOp => EmitInvalid(s)
    case TakeOp => Take(k, s)
    case WroteOp => Wrote(s)
    case FailedOp => Failed(s)
    case CloseOp => Closed(s)
  }

  function Run(k: Limits, s: Log, ops: seq<Op>): Log
    decreases |ops|
  {
    if ops == [] then s else Run(k, Step(k, s, ops[0]), ops[1..])
  }

  // ---- no number is missing and none is used twice ----

  function FirstOf(l: Line): nat { if l.EventLine? then l.sequence else l.gap.first }

  function LastOf(l: Line): nat { if l.EventLine? then l.sequence else l.gap.last }

  /** The lines cover consecutive numbers from `from` up to, not including, `to`, and gaps count what they cover. */
  predicate Tiles(ls: seq<Line>, from: nat, to: nat) {
    if ls == [] then from == to
    else
      && FirstOf(ls[0]) == from <= LastOf(ls[0])
      && (ls[0].GapLine? ==> ls[0].gap.count == ls[0].gap.last - ls[0].gap.first + 1)
      && Tiles(ls[1..], LastOf(ls[0]) + 1, to)
  }

  predicate GapTiles(gap: Option<Gap>, from: nat, to: nat) {
    match gap
    case None => from == to
    case Some(g) => g.first == from && g.last + 1 == to && g.first <= g.last && g.count == g.last - g.first + 1
  }

  /** Where the pending gap starts, or where the next event will. */
  function Edge(s: Log): nat { if s.gap.Some? then s.gap.value.first else s.stats.last + 1 }

  predicate Partition(s: Log) { Tiles(s.taken + s.queue, 1, Edge(s)) && GapTiles(s.gap, Edge(s), s.stats.last + 1) }

  predicate Counted(s: Log) {
    s.stats.last == s.stats.written + s.stats.lostOverflow + s.stats.lostWrite + EventsIn(s.queue) + EventsIn(Held(s.flight))
  }

  predicate Paid(k: Limits, s: Log) {
    s.queueBytes == BytesIn(s.queue) + BytesIn(Held(s.flight)) - s.unpaid <= k.maxQueue
  }

  predicate PhasesOk(s: Log) {
    && (s.failed ==> s.finished)
    && (s.finished ==> s.closing && s.flight.None? && s.queue == [] && s.gap.None?)
    && (s.unpaid > 0 ==> s.closing && s.queue == [] && s.gap.None?)
  }

  predicate LogOk(k: Limits, s: Log) { Counted(s) && Paid(k, s) && PhasesOk(s) && (!s.failed ==> Partition(s)) }

  lemma {:induction false} TilesMore(ls: seq<Line>, more: seq<Line>, from: nat, mid: nat, to: nat)
    requires Tiles(ls, from, mid) && Tiles(more, mid, to)
    ensures Tiles(ls + more, from, to)
  {
    if ls == [] {
      assert ls + more == more;
    } else {
      TilesMore(ls[1..], more, LastOf(ls[0]) + 1, mid, to);
      assert (ls + more)[1..] == ls[1..] + more;
    }
  }

  lemma {:induction false} EventsMore(ls: seq<Line>, more: seq<Line>)
    ensures EventsIn(ls + more) == EventsIn(ls) + EventsIn(more)
    ensures BytesIn(ls + more) == BytesIn(ls) + BytesIn(more)
  {
    if ls == [] {
      assert ls + more == more;
    } else {
      EventsMore(ls[1..], more);
      assert (ls + more)[1..] == ls[1..] + more;
    }
  }

  lemma OverflowOk(k: Limits, s: Log)
    requires LogOk(k, s) && !s.closing && !s.failed
    ensures LogOk(k, Overflowed(s.(stats := s.stats.(last := s.stats.last + 1))))
  {
  }

  /** The line of a pending gap, as it is put before the event that ends it. */
  function GapOf(k: Limits, gap: Option<Gap>): seq<Line> {
    if gap.Some? then [GapLine(gap.value, k.gapBytes(gap.value))] else []
  }

  lemma GapOfTiles(k: Limits, gap: Option<Gap>, from: nat, to: nat)
    requires GapTiles(gap, from, to)
    ensures Tiles(GapOf(k, gap), from, to) && EventsIn(GapOf(k, gap)) == 0
  {
    if gap.Some? {
      assert GapOf(k, gap)[1..] == [];
    }
  }

  lemma EmitOk(k: Limits, s: Log, size: Option<nat>)
    requires LogOk(k, s)
    ensures LogOk(k, Emitted(k, s, size))
  {
    if !(s.closing || s.failed) {
      var gap := GapOf(k, s.gap);
      if size.None? || size.value > k.maxQueue || size.value > k.maxFile
         || s.queueBytes + size.value + BytesIn(gap) > k.maxQueue || BytesIn(gap) > k.maxFile {
        OverflowOk(k, s);
      } else {
        AdmitOk(k, s, size.value);
      }
    }
  }

  lemma AdmitOk(k: Limits, s: Log, size: nat)
    requires LogOk(k, s) && !s.closing && !s.failed
    requires s.queueBytes + size + BytesIn(GapOf(k, s.gap)) <= k.maxQueue
    ensures LogOk(k, s.(stats := s.stats.(last := s.stats.last + 1),
                        queue := s.queue + GapOf(k, s.gap) + [EventLine(s.stats.last + 1, size)],
                        queueBytes := s.queueBytes + size + BytesIn(GapOf(k, s.gap)), gap := None))
  {
    var gap, line, n := GapOf(k, s.gap), EventLine(s.stats.last + 1, size), s.stats.last + 1;
    var queue := s.queue + gap + [line];
    hide Tiles;
    GapOfTiles(k, s.gap, Edge(s), n);
    TilesMore(s.taken + s.queue, gap, 1, Edge(s), n);
    TilesOne(line);
    TilesMore(s.taken + s.queue + gap, [line], 1, n, n + 1);
    assert s.taken + s.queue + gap + [line] == s.taken + queue;
    hide EventsIn, BytesIn;
    EventsMore(s.queue, gap);
    EventsMore(s.queue + gap, [line]);
    LineCounts(line);
  }

  lemma TilesOne(line: Line)
    requires line.EventLine?
    ensures Tiles([line], line.sequence, line.sequence + 1)
  {
    assert [line][1..] == [];
  }

  lemma LineCounts(line: Line)
    ensures EventsIn([line]) == Events(line) && BytesIn([line]) == line.bytes
  {
    assert [line][1..] == [];
  }

  lemma TakeOk(k: Limits, s: Log)
    requires LogOk(k, s)
    ensures LogOk(k, Take(k, s))
  {
    var u := Take(k, s);
    if s.flight.None? && !s.finished {
      if s.queue != [] {
        assert u.taken + u.queue == s.taken + s.queue;
        LineCounts(s.queue[0]);
      } else if s.closing && s.gap.Some? {
        hide Tiles;
        GapOfTiles(k, s.gap, Edge(s), s.stats.last + 1);
        TilesMore(s.taken + s.queue, GapOf(k, s.gap), 1, Edge(s), s.stats.last + 1);
        assert u.taken + u.queue == s.taken + s.queue + GapOf(k, s.gap);
        LineCounts(u.flight.value);
      }
    }
  }

  lemma WroteOk(k: Limits, s: Log)
    requires LogOk(k, s)
    ensures LogOk(k, Wrote(s))
  {
    if s.flight.Some? {
      LineCounts(s.flight.value);
    }
  }

  lemma StepOk(k: Limits, s: Log, op: Op)
    requires LogOk(k, s)
    ensures LogOk(k, Step(k, s, op))
  {
    match op
    case EmitOp(size) => EmitOk(k, s, size);
    case TakeOp => TakeOk(k, s);
    case WroteOp => WroteOk(k, s);
    case _ =>
  }

  lemma {:induction false} RunOk(k: Limits, s: Log, ops: seq<Op>)
    requires LogOk(k, s)
    ensures LogOk(k, Run(k, s, ops))
    decreases |ops|
  {
    hide LogOk, Step;
    if ops != [] {
      StepOk(k, s, ops[0]);
      RunOk(k, Step(k, s, ops[0]), ops[1..]);
    }
  }

  lemma {:induction false} Reachable(k: Limits, ops: seq<Op>)
    ensures LogOk(k, Run(k, NewLog(), ops))
  {
    hide Run, LogOk;
    EmptyOk(k, NewLog());
    RunOk(k, NewLog(), ops);
  }

  lemma EmptyOk(k: Limits, s: Log)
    requires s.queue == [] && s.taken == [] && s.flight.None? && s.gap.None? && !s.failed && !s.finished
    requires s.queueBytes == 0 && s.unpaid == 0 && s.stats == Stats(0, 0, 0, 0, 0, 0, 0)
    ensures LogOk(k, s)
  {
    assert s.taken + s.queue == [];
  }

  /**
    In every run: each number is written, lost, queued or in flight, exactly
    once; the queue keeps within its bytes; and until a write fails the lines taken and queued, followed by the
    pending gap, partition 1..last with no hole and no overlap.
   */
  lemma {:induction false} LogSafety(k: Limits, ops: seq<Op>)
    ensures var s := Run(k, NewLog(), ops);
      && s.stats.last == s.stats.written + s.stats.lostOverflow + s.stats.lostWrite + EventsIn(s.queue) + EventsIn(Held(s.flight))
      && s.queueBytes <= k.maxQueue
      && (!s.failed ==> Tiles(s.taken + s.queue, 1, Edge(s)) && GapTiles(s.gap, Edge(s), s.stats.last + 1))
  {
    Reachable(k, ops);
    hide Run, NewLog;
  }

  function GapSize(k: Limits, gap: Option<Gap>): nat { if gap.Some? then k.gapBytes(gap.value) else 0 }

  /** An event of this size has room beside everything held and the record of what was lost before it. */
  predicate HasRoom(k: Limits, s: Log, size: nat) {
    && size <= k.maxQueue && size <= k.maxFile && GapSize(k, s.gap) <= k.maxFile
    && BytesIn(s.queue) + BytesIn(Held(s.flight)) + size + GapSize(k, s.gap) <= k.maxQueue
  }

  /**
    In every run: while the log is open, an event is kept if and only if it can
    be encoded and has room. Kept, it is the last line of the queue, right behind
    the gap that was pending; lost, it is counted, and the pending gap ends with
    it. A closing or failed log takes no notice of it.
   */
  lemma {:induction false} EventIsKeptIfItFits(k: Limits, ops: seq<Op>, size: Option<nat>)
    ensures var s, u := Run(k, NewLog(), ops), Run(k, NewLog(), ops + [EmitOp(size)]);
      if s.closing || s.failed then u == s else
      && u.stats.last == s.stats.last + 1
      && (size.Some? && HasRoom(k, s, size.value) ==>
            && u.queue == s.queue + GapOf(k, s.gap) + [EventLine(s.stats.last + 1, size.value)]
            && u.gap.None? && u.stats.lostOverflow == s.stats.lostOverflow)
      && (!(size.Some? && HasRoom(k, s, size.value)) ==>
            && u.queue == s.queue && u.stats.lostOverflow == s.stats.lostOverflow + 1
            && u.gap.Some? && u.gap.value.last == s.stats.last + 1)
  {
    Reachable(k, ops);
    RunMore(k, NewLog(), ops, [EmitOp(size)]);
    hide NewLog, Tiles;
    var s := Run(k, NewLog(), ops);
    assert Run(k, s, [EmitOp(size)]) == Step(k, s, EmitOp(size)) by { OneStep(k, s, EmitOp(size)); }
    hide Run;
    if s.gap.Some? {
      LineCounts(GapLine(s.gap.value, k.gapBytes(s.gap.value)));
    }
  }

  lemma OneStep(k: Limits, s: Log, op: Op)
    ensures Run(k, s, [op]) == Step(k, s, op)
  {
    assert [op][1..] == [];
  }

  lemma {:induction false} RunMore(k: Limits, s: Log, a: seq<Op>, b: seq<Op>)
    ensures Run(k, s, a + b) == Run(k, Run(k, s, a), b)
    decreases |a|
  {
    hide Step;
    if a == [] {
      assert a + b == b;
    } else {
      assert (a + b)[1..] == a[1..] + b;
      RunMore(k, Step(k, s, a[0]), a[1..], b);
    }
  }

  /** The writer writes the line it holds and takes another, n times over. */
  function Rounds(n: nat): seq<Op> { if n == 0 then [] else [WroteOp, TakeOp] + Rounds(n - 1) }

  /** What is still to be written or taken. */
  function Left(s: Log): nat { |s.queue| + (if s.gap.Some? then 1 else 0) + (if s.finished then 0 else 1) }

  lemma RoundProgress(k: Limits, s: Log)
    requires PhasesOk(s) && s.closing && !s.failed
    ensures var u := Take(k, Wrote(s)); u.closing && !u.failed && (if s.finished then u == s else Left(u) < Left(s))
  {
  }

  lemma {:induction false} RoundsFinish(k: Limits, s: Log, n: nat)
    requires LogOk(k, s) && s.closing && !s.failed && Left(s) <= n
    ensures var u := Run(k, s, Rounds(n)); u.finished && !u.failed
    decreases n
  {
    hide Take, Wrote, LogOk;
    if n > 0 {
      var m := Take(k, Wrote(s));
      assert PhasesOk(s) by { Phases(k, s); }
      RoundProgress(k, s);
      StepOk(k, s, WroteOp);
      StepOk(k, Wrote(s), TakeOp);
      RoundsFinish(k, m, n - 1);
      assert ([WroteOp, TakeOp] + Rounds(n - 1))[1..][1..] == Rounds(n - 1);
    }
  }

  lemma Phases(k: Limits, s: Log)
    requires LogOk(k, s)
    ensures PhasesOk(s)
  {
  }

  /** A log that is closed gets to its end if the writer goes on without a failure; its reader then knows of every number. */
  lemma {:induction false} ClosedLogDrains(k: Limits, ops: seq<Op>, n: nat)
    requires var s := Run(k, NewLog(), ops); s.closing && !s.failed && Left(s) <= n
    ensures var u := Run(k, NewLog(), ops + Rounds(n));
      u.finished && !u.failed && Tiles(u.taken, 1, u.stats.last + 1)
  {
    hide Run, LogOk, NewLog;
    Reachable(k, ops);
    RoundsFinish(k, Run(k, NewLog(), ops), n);
    RunMore(k, NewLog(), ops, Rounds(n));
    ClosedLogIsComplete(k, ops + Rounds(n));
  }

  /** A log closed without a failure has told its reader of every number: written, or named in a gap. */
  lemma {:induction false} ClosedLogIsComplete(k: Limits, ops: seq<Op>)
    requires var s := Run(k, NewLog(), ops); s.finished && !s.failed
    ensures var s := Run(k, NewLog(), ops);
      Tiles(s.taken, 1, s.stats.last + 1) && s.stats.last == s.stats.written + s.stats.lostOverflow + s.stats.lostWrite
  {
    Reachable(k, ops);
    hide Run, NewLog;
    var s := Run(k, NewLog(), ops);
    assert s.taken + s.queue == s.taken;
  }

  /** The byte counter is that of the lines queued and in flight. */
  predicate BytesMatch(s: Log) { s.queueBytes == BytesIn(s.queue) + BytesIn(Held(s.flight)) }

  /** It stays so as long as no closing gap is taken, and only then. */
  lemma {:induction false} BytesMatchUnlessClosingGap(k: Limits, ops: seq<Op>)
    requires forall g :: k.gapBytes(g) > 0
    ensures var s := Run(k, NewLog(), ops);
      BytesMatch(s) ==> (BytesMatch(Take(k, s)) <==> !(s.flight.None? && !s.finished && s.queue == [] && s.closing && s.gap.Some?))
    ensures var s := Run(k, NewLog(), ops);
      forall op :: BytesMatch(s) && op != TakeOp ==> BytesMatch(Step(k, s, op))
  {
    Reachable(k, ops);
    hide Run, NewLog;
    var s := Run(k, NewLog(), ops);
    forall op | BytesMatch(s) && op != TakeOp
      ensures BytesMatch(Step(k, s, op))
    {
      StepOk(k, s, op);
    }
    TakeOk(k, s);
  }

  /** One event too large for the queue, then a close: the counter ends below zero. */
  lemma ClosingGapIsNotCounted(k: Limits)
    requires forall g :: k.gapBytes(g) > 0
    ensures var s := Run(k, NewLog(), [EmitOp(None), CloseOp, TakeOp, WroteOp]);
      s.queueBytes < 0 && s.queue == [] && s.flight.None? && !BytesMatch(s)
  {
    var s := NewLog();
    var ops := [EmitOp(None), CloseOp, TakeOp, WroteOp];
    assert ops[1..] == [CloseOp, TakeOp, WroteOp] && ops[1..][1..] == [TakeOp, WroteOp];
    assert ops[1..][1..][1..] == [WroteOp] && ops[1..][1..][1..][1..] == [];
    var s1 := Step(k, s, EmitOp(None));
    var s2 := Step(k, s1, CloseOp);
    var s3 := Step(k, s2, TakeOp);
    assert s3.flight == Some(GapLine(Gap(1, 1, 1), k.gapBytes(Gap(1, 1, 1))));
    var s4 := Step(k, s3, WroteOp);
    assert Run(k, s3, [WroteOp]) == s4;
    assert Run(k, s2, [TakeOp, WroteOp]) == s4;
    assert Run(k, s1, [CloseOp, TakeOp, WroteOp]) == s4;
  }

  // ---- the logger object ----

  class Logger {
    const limits: Limits

    var queue: seq<Line>
    var queueBytes: int
    var gap: Option<Gap>
    var closing: bool
    var failed: bool
    var stats: Stats
    var flight: Option<Line>
    var finished: bool
    ghost var taken: seq<Line>
    ghost var unpaid: nat

    ghost function Snapshot(): Log
      reads this
    {
      Log(queue, queueBytes, gap, closing, failed, stats, flight, finished, taken, unpaid)
    }

    constructor (limits: Limits)
      ensures this.limits == limits && Snapshot() == NewLog()
    {
      this.limits := limits;
      queue, queueBytes, gap, closing, failed := [], 0, None, false, false;
      stats, flight, finished, taken, unpaid := Stats(0, 0, 0, 0, 0, 0, 0), None, false, [], 0;
    }

    method AddGap(sequence: nat)
      modifies this`gap
      ensures gap == Some(WithGap(old(gap), sequence))
    {
      if gap.None? {
        gap := Some(Gap(sequence, sequence, 1));
        return;
      }
      gap := Some(gap.value.(last := sequence, count := gap.value.count + 1));
    }

    method Emit(size: Option<nat>) returns (admitted: bool)
      modifies this
      ensures Snapshot() == Emitted(limits, old(Snapshot()), size)
      ensures admitted <==> queue != old(queue)
    {
      if closing || failed {
        return false;
      }
      stats := stats.(last := stats.last + 1);
      var sequence := stats.last;
      if size.None? || size.value > limits.maxQueue || size.value > limits.maxFile {
        AddGap(sequence);
        stats := stats.(lostOverflow := stats.lostOverflow + 1);
        return false;
      }
      var before: seq<Line>, bytes := [], 0;
      if gap.Some? {
        before := [GapLine(gap.value, limits.gapBytes(gap.value))];
        bytes := before[0].bytes;
        LineCounts(before[0]);
      }
      if queueBytes + size.value + bytes > limits.maxQueue || bytes > limits.maxFile {
        AddGap(sequence);
        stats := stats.(lostOverflow := stats.lostOverflow + 1);
        return false;
      }
      if gap.Some? {
        queue := queue + before;
        queueBytes := queueBytes + bytes;
        gap := None;
      }
      queue := queue + [EventLine(sequence, size.value)];
      queueBytes := queueBytes + size.value;
      assert queue == old(queue) + before + [EventLine(sequence, size.value)];
      return true;
    }

    method TakeLine()
      modifies this
      ensures Snapshot() == Take(limits, old(Snapshot()))
    {
      if flight.Some? || finished {
        return;
      }
      if |queue| != 0 {
        flight, taken := Some(queue[0]), taken + [queue[0]];
        queue := queue[1..];
        return;
      }
      if !closing {
        return;
      }
      if gap.Some? {
        var line := GapLine(gap.value, limits.gapBytes(gap.value));
        flight, gap := Some(line), None;
        taken, unpaid := taken + [line], line.bytes;
        return;
      }
      finished := true;
    }

    method WroteLine()
      modifies this
      ensures Snapshot() == Wrote(old(Snapshot()))
    {
      if flight.None? {
        return;
      }
      var line := flight.value;
      flight := None;
      if line.GapLine? {
        stats := stats.(gapRecords := stats.gapRecords + 1);
      } else {
        stats := stats.(written := stats.written + 1);
      }
      queueBytes := queueBytes - line.bytes;
    }

    method Fail()
      modifies this
      ensures Snapshot() == Failed(old(Snapshot()))
    {
      if flight.None? && (!finished || failed) {
        return;
      }
      failed, closing, finished := true, true, true;
      var lost := 0;
      if flight.Some? {
        lost := Events(flight.value);
        LineCounts(flight.value);
      }
      var i := 0;
      while i < |queue|
        invariant 0 <= i <= |queue|
        invariant lost + EventsIn(queue[i..]) == EventsIn(Held(flight)) + EventsIn(queue)
      {
        assert queue[i..][1..] == queue[i + 1..];
        lost := lost + Events(queue[i]);
        i := i + 1;
      }
      stats := stats.(writeErrors := stats.writeErrors + 1, lostWrite := stats.lostWrite + lost);
      queue, queueBytes, gap, flight, unpaid := [], 0, None, None, 0;
    }

    method Close()
      modifies this`closing
      ensures Snapshot() == Closed(old(Snapshot()))
    {
      if !closing {
        closing := true;
      }
    }
  }
}
