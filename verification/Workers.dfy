/**
  The run cursor kept by the Go and by the JavaScript worker: what every
  sequence of frames leaves true of it, and the two implementations of it, which
  differ only above the largest integer JavaScript represents exactly.
 */
module Workers {
  import opened Common
  import opened RunIds
  import opened WorkerModel

  // ---- the cursor ----

  /** Frames and acknowledgements that touch the cursor, in the order the worker's mutex serialises them. */
  datatype Touch = Execute(text: string) | Ack(text: string) | Ready(run: RunId) | Close

  function Touched(c: Cursor, t: Touch): Cursor {
    match t
    case Execute(text) => Accept(c, Classify(text))
    case Ack(text) => Acknowledge(c, Classify(text))
    case Ready(run) => Publish(c, run)
    case Close => CloseSlot(c)
  }

  function After(c: Cursor, ts: seq<Touch>): Cursor
    decreases |ts|
  {
    if ts == [] then c else After(Touched(c, ts[0]), ts[1..])
  }

  /** Records acknowledged+1..last of one generation, in order; only the newest may be running, and only in its slot. */
  ghost predicate CursorOk(c: Cursor) {
    && c.acknowledged <= c.last && |c.records| == c.last - c.acknowledged <= MAX_OPERATIONS
    && (c.generation.None? ==> c.last == 0)
    && (forall i :: 0 <= i < |c.records| ==>
          c.records[i].id.sequence == c.acknowledged + 1 + i && c.generation == Some(c.records[i].id.generation))
    && (forall i :: 0 <= i < |c.records| && c.records[i].running ==> i == |c.records| - 1 && c.slot != Idle)
    && (c.slot.Active? ==> |c.records| > 0 && c.records[|c.records| - 1] == Record(c.slot.run, true))
  }

  lemma TouchedOk(c: Cursor, t: Touch)
    requires CursorOk(c)
    ensures CursorOk(Touched(c, t))
    ensures Touched(c, t).acknowledged >= c.acknowledged && Touched(c, t).last >= c.last
    ensures c.slot == Closing ==> Touched(c, t).slot == Closing && Touched(c, t).last == c.last
  {
    var d := Touched(c, t);
    match t
    case Execute(text) =>
    case Ack(text) => assert forall i :: 0 <= i < |d.records| && d != c ==> d.records[i] == c.records[i + 1];
    case Ready(run) => assert |d.records| == |c.records|;
    case Close =>
  }

  /** Whatever a daemon sends, the cursor stays in order, and a closing worker takes no further run. */
  lemma {:induction false} CursorSafety(ts: seq<Touch>, more: seq<Touch>)
    ensures CursorOk(After(NewCursor(), ts))
    ensures var c, d := After(NewCursor(), ts), After(After(NewCursor(), ts), more);
      && c.acknowledged <= d.acknowledged && c.last <= d.last
      && (c.slot == Closing ==> d.slot == Closing && d.last == c.last)
  {
    hide After;
    assert CursorOk(NewCursor());
    hide CursorOk;
    AfterOk(NewCursor(), ts);
    AfterOk(After(NewCursor(), ts), more);
  }

  lemma {:induction false} AfterOk(c: Cursor, ts: seq<Touch>)
    requires CursorOk(c)
    ensures CursorOk(After(c, ts)) && c.acknowledged <= After(c, ts).acknowledged && c.last <= After(c, ts).last
    ensures c.slot == Closing ==> After(c, ts).slot == Closing && After(c, ts).last == c.last
    decreases |ts|
  {
    hide CursorOk, Touched;
    if ts != [] {
      TouchedOk(c, ts[0]);
      AfterOk(Touched(c, ts[0]), ts[1..]);
    }
  }

  /** Only the oldest record, once terminal, can be acknowledged, and it is then the only one to go. */
  lemma OnlyHeadIsReleased(c: Cursor, ref: RunText)
    requires CursorOk(c) && Acknowledge(c, ref) != c
    ensures |c.records| > 0 && c.records[0] == Record(ref.id, false) && ref.Exact?
    ensures Acknowledge(c, ref) == c.(records := c.records[1..], acknowledged := c.acknowledged + 1)
  {
  }

  /** A reference the worker can place: well formed and of its generation. */
  predicate Known(c: Cursor, ref: RunText) { ref.Exact? && c.generation == Some(ref.id.generation) }

  /** The run to be acknowledged next has ended, whatever run is under way. */
  predicate HeadEnded(c: Cursor) { |c.records| > 0 && !c.records[0].running }

  /**
    An acknowledgement succeeds if and only if its run was acknowledged before or
    is the oldest retained one and has ended; it must be repeated later while any
    result is retained; and otherwise its run is not known here.
   */
  lemma AckExact(c: Cursor, ref: RunText)
    requires CursorOk(c)
    ensures AckCode(c, ref) in {0, BUSY, UNKNOWN_SESSION}
    ensures AckCode(c, ref) == 0 <==>
      Known(c, ref) && (ref.id.sequence <= c.acknowledged || (ref.id.sequence == c.acknowledged + 1 <= c.last && HeadEnded(c)))
    ensures AckCode(c, ref) == BUSY <==>
      Known(c, ref) && c.acknowledged < c.last && c.acknowledged < ref.id.sequence && !(ref.id.sequence == c.acknowledged + 1 && HeadEnded(c))
    ensures Known(c, ref) && ref.id.sequence == c.acknowledged + 1 <= c.last && HeadEnded(c) ==>
      Acknowledge(c, ref).acknowledged == c.acknowledged + 1 && Acknowledge(c, ref).records == c.records[1..]
  {
    if Known(c, ref) && |c.records| > 0 {
      assert c.records[0].id.generation == ref.id.generation;
    }
  }

  /**
    A run is accepted if and only if the worker is open, no run is under way, it
    is the next of its generation, and fewer than 256 runs are not acknowledged.
   */
  lemma AcceptExact(c: Cursor, ref: RunText)
    requires CursorOk(c)
    ensures ExecuteCode(c, ref) in {0, BUSY, INVALID_FRAME}
    ensures ExecuteCode(c, ref) == BUSY <==> !c.open || c.slot != Idle || c.last - c.acknowledged == MAX_OPERATIONS
    ensures ExecuteCode(c, ref) == 0 <==>
      && c.open && c.slot == Idle && c.last - c.acknowledged < MAX_OPERATIONS
      && ref.Exact? && (c.generation.None? || Known(c, ref)) && ref.id.sequence == c.last + 1
    ensures ExecuteCode(c, ref) == 0 ==>
      && Known(Accept(c, ref), ref) && Accept(c, ref).last == c.last + 1 && Accept(c, ref).acknowledged == c.acknowledged
      && Accept(c, ref).slot == Active(ref.id) && !HeadEnded(Accept(c, ref).(records := Accept(c, ref).records[|c.records|..]))
  {
  }

  /** The next n results of a cursor, acknowledged one after the other. */
  function AckNext(c: Cursor, n: nat): Cursor {
    if n == 0 || c.generation.None? then c
    else var d := AckNext(c, n - 1); Acknowledge(d, Exact(RunId(c.generation.value, d.acknowledged + 1)))
  }

  /** Every result that has ended can be released, oldest first, until none is retained; nothing else changes. */
  lemma {:induction false} EndedRunsAreReleased(c: Cursor, n: nat)
    requires CursorOk(c) && n <= |c.records| && forall i :: 0 <= i < n ==> !c.records[i].running
    ensures AckNext(c, n) == c.(records := c.records[n..], acknowledged := c.acknowledged + n)
    ensures CursorOk(AckNext(c, n))
  {
    if n > 0 {
      EndedRunsAreReleased(c, n - 1);
      var d := AckNext(c, n - 1);
      assert d.records[0] == c.records[n - 1];
      AckExact(d, Exact(RunId(c.generation.value, d.acknowledged + 1)));
      assert d.records[1..] == c.records[n..];
    }
  }

  /** An acknowledgement may be repeated: it succeeds again and changes nothing. */
  lemma AckIsIdempotent(c: Cursor, ref: RunText)
    requires AckCode(c, ref) == 0
    ensures AckCode(Acknowledge(c, ref), ref) == 0 && Acknowledge(Acknowledge(c, ref), ref) == Acknowledge(c, ref)
  {
  }

  /** The head that is acknowledged and the run that is accepted next never collide: sequences are used once. */
  lemma AcceptedIsNew(c: Cursor, ref: RunText)
    requires CursorOk(c) && ExecuteCode(c, ref) == 0
    ensures forall i :: 0 <= i < |c.records| ==> c.records[i].id != ref.id
    ensures ref.id.sequence > c.acknowledged && AckCode(c, ref) != 0
  {
  }

  // ---- the two implementations ----

  /** A retained result: its reference as text, whether it still runs, and its sequence. */
  datatype Row = Row(text: string, running: bool, sequence: nat)

  predicate RowOk(r: Row) { WorkerParse(r.text).Some? && WorkerParse(r.text).value.sequence == r.sequence }

  function IdOf(r: Row): RunId { if WorkerParse(r.text).Some? then WorkerParse(r.text).value else RunId("", 0) }

  function Rows(rows: seq<Row>): seq<Record> {
    seq(|rows|, i requires 0 <= i < |rows| => Record(IdOf(rows[i]), rows[i].running))
  }

  /** The abstract cursor of a worker's fields; the empty generation is none yet. */
  function Abstract(open: bool, run: Slot, rows: seq<Row>, generation: string, last: nat, acknowledged: nat): Cursor {
    Cursor(open, run, Rows(rows), if generation == "" then None else Some(generation), last, acknowledged)
  }

  /** Two accepted references have the same text exactly when they name the same run. */
  lemma SameText(a: string, b: string)
    requires WorkerParse(a).Some? && WorkerParse(b).Some?
    ensures a == b <==> WorkerParse(a) == WorkerParse(b)
  {
    Canonical(a);
    Canonical(b);
  }

  function Published(rows: seq<Row>, text: string): seq<Row> {
    seq(|rows|, i requires 0 <= i < |rows| => if rows[i].text == text then rows[i].(running := false) else rows[i])
  }

  lemma PublishedRows(rows: seq<Row>, text: string)
    requires WorkerParse(text).Some? && forall i :: 0 <= i < |rows| ==> RowOk(rows[i])
    ensures forall i :: 0 <= i < |rows| ==> RowOk(Published(rows, text)[i])
    ensures Rows(Published(rows, text)) == seq(|rows|, i requires 0 <= i < |rows| =>
      if IdOf(rows[i]) == WorkerParse(text).value then Record(WorkerParse(text).value, false) else Rows(rows)[i])
  {
    forall i | 0 <= i < |rows|
      ensures rows[i].text == text <==> IdOf(rows[i]) == WorkerParse(text).value
    {
      SameText(rows[i].text, text);
    }
  }

  lemma Appended(rows: seq<Row>, r: Row)
    ensures Rows(rows + [r]) == Rows(rows) + [Record(IdOf(r), r.running)]
  {
  }

  lemma Shifted(rows: seq<Row>)
    requires rows != []
    ensures Rows(rows[1..]) == Rows(rows)[1..]
  {
  }

  class GoWorker {
    var open: bool
    var run: Slot
    var records: seq<Row>
    var generation: string
    var lastSequence: nat
    var acknowledged: nat

    ghost predicate Valid()
      reads this
    {
      forall i :: 0 <= i < |records| ==> RowOk(records[i])
    }

    ghost function Value(): Cursor
      reads this
    {
      Abstract(open, run, records, generation, lastSequence, acknowledged)
    }

    constructor ()
      ensures Valid() && Value() == NewCursor()
    {
      open, run, records, generation, lastSequence, acknowledged := true, Idle, [], "", 0, 0;
    }

    method Execute(text: string) returns (code: int)
      requires Valid()
      modifies this
      ensures Valid() && code == ExecuteCode(old(Value()), Classify(text)) && Value() == Accept(old(Value()), Classify(text))
    {
      hide WorkerParse, DaemonParse;
      ClassifyDecidesBoth(text);
      var parsed := WorkerParse(text);
      code := 0;
      if !open || run != Idle || |records| >= MAX_OPERATIONS {
        code := BUSY;
      } else if parsed.None? || (generation != "" && generation != parsed.value.generation)
                || parsed.value.sequence != lastSequence + 1 {
        code := INVALID_FRAME;
      }
      if code != 0 {
        return;
      }
      generation, lastSequence := parsed.value.generation, parsed.value.sequence;
      Appended(records, Row(text, true, parsed.value.sequence));
      records := records + [Row(text, true, parsed.value.sequence)];
      run := Active(parsed.value);
    }

    method Ack(text: string) returns (code: int)
      requires Valid()
      modifies this
      ensures Valid() && code == AckCode(old(Value()), Classify(text)) && Value() == Acknowledge(old(Value()), Classify(text))
    {
      hide WorkerParse, DaemonParse;
      ClassifyDecidesBoth(text);
      var parsed := WorkerParse(text);
      code := UNKNOWN_SESSION;
      if parsed.Some? && parsed.value.generation == generation {
        if |records| > 0 {
          SameText(records[0].text, text);
        }
        if parsed.value.sequence <= acknowledged {
          code := 0;
        } else if |records| > 0 && records[0].text == text && !records[0].running {
          acknowledged := parsed.value.sequence;
          Shifted(records);
          records := records[1..];
          code := 0;
        } else if |records| > 0 {
          code := BUSY;
        }
      }
    }

    /** The ready acknowledgement of the run named text. */
    method Ready(text: string)
      requires Valid() && WorkerParse(text).Some?
      modifies this`records, this`run
      ensures Valid() && Value() == Publish(old(Value()), WorkerParse(text).value)
    {
      hide WorkerParse;
      PublishedRows(records, text);
      var i := 0;
      while i < |records|
        modifies this`records
        invariant 0 <= i <= |records| == |old(records)|
        invariant records[..i] == Published(old(records), text)[..i] && records[i..] == old(records)[i..]
      {
        if records[i].text == text {
          records := records[i := records[i].(running := false)];
        }
        i := i + 1;
      }
      assert records == Published(old(records), text);
      assert Rows(records) == Publish(old(Value()), WorkerParse(text).value).records;
      var id := WorkerParse(text);
      if run == Active(id.value) {
        run := Idle;
      }
    }

    method Close()
      requires Valid()
      modifies this`run
      ensures Valid() && Value() == CloseSlot(old(Value()))
    {
      run := Closing;
    }
  }

  /** The JavaScript worker; its parser refuses sequences above the largest safe integer. */
  class JsWorker {
    var open: bool
    var run: Slot
    var records: seq<Row>
    var generation: string
    var lastSequence: nat
    var acknowledged: nat

    ghost predicate Valid()
      reads this
    {
      forall i :: 0 <= i < |records| ==> RowOk(records[i])
    }

    ghost function Value(): Cursor
      reads this
    {
      Abstract(open, run, records, generation, lastSequence, acknowledged)
    }

    constructor ()
      ensures Valid() && Value() == NewCursor()
    {
      open, run, records, generation, lastSequence, acknowledged := true, Idle, [], "", 0, 0;
    }

    method Execute(text: string) returns (code: int)
      requires Valid()
      modifies this
      ensures Valid()
      ensures Safe(text) ==> code == ExecuteCode(old(Value()), Classify(text)) && Value() == Accept(old(Value()), Classify(text))
      ensures !Safe(text) ==> code != 0 && Value() == old(Value())
    {
      hide WorkerParse, DaemonParse, JsParse;
      ClassifyDecidesBoth(text);
      JsAgreesWithGo(text);
      if !open || run != Idle || |records| >= MAX_OPERATIONS {
        return BUSY;
      }
      var parsed := JsParse(text);
      if parsed.None? || (generation != "" && generation != parsed.value.generation)
         || parsed.value.sequence != lastSequence + 1 {
        return INVALID_FRAME;
      }
      generation, lastSequence := parsed.value.generation, parsed.value.sequence;
      run := Active(parsed.value);
      Appended(records, Row(text, true, parsed.value.sequence));
      records := records + [Row(text, true, parsed.value.sequence)];
      return 0;
    }

    method Ack(text: string) returns (code: int)
      requires Valid()
      modifies this
      ensures Valid()
      ensures Safe(text) ==> code == AckCode(old(Value()), Classify(text)) && Value() == Acknowledge(old(Value()), Classify(text))
      ensures !Safe(text) ==> code != 0 && Value() == old(Value())
    {
      hide WorkerParse, DaemonParse, JsParse;
      ClassifyDecidesBoth(text);
      JsAgreesWithGo(text);
      code := UNKNOWN_SESSION;
      var parsed := JsParse(text);
      if parsed.Some? && parsed.value.generation == generation {
        if |records| > 0 {
          SameText(records[0].text, text);
        }
        if parsed.value.sequence <= acknowledged {
          code := 0;
        } else if |records| > 0 && records[0].text == text && !records[0].running {
          acknowledged := parsed.value.sequence;
          Shifted(records);
          records := records[1..];
          code := 0;
        } else if |records| > 0 {
          code := BUSY;
        }
      }
    }

    /** The ready acknowledgement of the run named text. */
    method Ready(text: string)
      requires Valid() && WorkerParse(text).Some?
      modifies this`records, this`run
      ensures Valid() && Value() == Publish(old(Value()), WorkerParse(text).value)
    {
      hide WorkerParse;
      PublishedRows(records, text);
      records := Published(records, text);
      assert Rows(records) == Publish(old(Value()), WorkerParse(text).value).records;
      if run.Active? && run == Active(WorkerParse(text).value) {
        run := Idle;
      }
    }

    method Close()
      requires Valid()
      modifies this`run
      ensures Valid() && Value() == CloseSlot(old(Value()))
    {
      run := Closing;
    }
  }

  /** References whose sequence JavaScript represents exactly. */
  predicate Safe(text: string) { WorkerParse(text).Some? ==> WorkerParse(text).value.sequence <= SAFE_INTEGER }
}
