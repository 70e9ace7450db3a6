/**
  The worker's side of a lane: a run cursor with a table of retained results,
  acknowledged strictly from the oldest, one run slot, and a closing sentinel
  that is never taken back.
 */
module WorkerModel {
  import opened Common
  import opened RunIds
  import opened SessionModel

  datatype Record = Record(id: RunId, running: bool)

  /** The run slot: free, held by a run, or holding the closing sentinel. */
  datatype Slot = Idle | Active(run: RunId) | Closing

  datatype Cursor = Cursor(open: bool, slot: Slot, records: seq<Record>, generation: Option<string>,
                           last: nat, acknowledged: nat)

  function NewCursor(): Cursor { Cursor(true, Idle, [], None, 0, 0) }

  /** The code with which a run frame is refused; zero admits it. */
  function ExecuteCode(c: Cursor, ref: RunText): int {
    if !c.open || c.slot != Idle || |c.records| >= MAX_OPERATIONS then BUSY
    else if !ref.Exact? || (c.generation.Some? && c.generation.value != ref.id.generation) || ref.id.sequence != c.last + 1
    then INVALID_FRAME else 0
  }

  function Accept(c: Cursor, ref: RunText): Cursor {
    if ExecuteCode(c, ref) != 0 then c else
    c.(slot := Active(ref.id), records := c.records + [Record(ref.id, true)],
       generation := Some(ref.id.generation), last := ref.id.sequence)
  }

  function AckCode(c: Cursor, ref: RunText): int {
    if !ref.Exact? || c.generation != Some(ref.id.generation) then UNKNOWN_SESSION
    else if ref.id.sequence <= c.acknowledged then 0
    else if |c.records| > 0 && c.records[0] == Record(ref.id, false) then 0
    else if |c.records| > 0 then BUSY
    else UNKNOWN_SESSION
  }

  function Acknowledge(c: Cursor, ref: RunText): Cursor {
    if AckCode(c, ref) == 0 && ref.id.sequence > c.acknowledged
    then c.(acknowledged := ref.id.sequence, records := c.records[1..]) else c
  }

  /** The ready acknowledgement: the run's record becomes terminal and its slot is freed. */
  function Publish(c: Cursor, id: RunId): Cursor {
    c.(records := seq(|c.records|, i requires 0 <= i < |c.records| =>
         if c.records[i].id == id then Record(id, false) else c.records[i]),
       slot := if c.slot == Active(id) then Idle else c.slot)
  }

  function CloseSlot(c: Cursor): Cursor { c.(slot := Closing) }

  /** The turn whose goroutine is still to announce its end, and what it has written so far. */
  datatype Turn = Turn(run: RunId, call: nat, seeded: bool, answered: bool, returned: bool, announced: Option<nat>)

  /** Frames the worker writes to the daemon. */
  datatype Up = Reply(id: nat, response: Response) | ReadyCall(id: nat, run: RunId, done: bool)

  /** An answer some goroutine still owes: decided already, or up to the product. */
  datatype Job = Decided(response: Response) | Native(active: bool) | Reading | Shutting

  datatype Worker = Worker(cursor: Cursor, waiters: nat, turn: Option<Turn>, jobs: map<nat, Job>,
                           lastIn: nat, nextCall: nat, out: seq<Up>, dead: bool)

  function NewWorker(): Worker { Worker(NewCursor(), 0, None, map[], 0, 0, [], false) }

  predicate Returned(w: Worker) { w.turn.Some? && w.turn.value.returned }

  function Owe(w: Worker, id: nat, job: Job): Worker { w.(jobs := w.jobs[id := job]) }

  /** What a run frame names. */
  function RunOf(r: Request): RunText { if r.run.Some? then Exact(r.run.value) else Malformed }

  function ReceiveRun(w: Worker, id: nat, r: Request): Worker {
    var code := ExecuteCode(w.cursor, RunOf(r));
    if code != 0 then Owe(w, id, Decided(Failed(code))) else
    w.(cursor := Accept(w.cursor, RunOf(r)),
       turn := Some(Turn(RunOf(r).id, id, r.verb == Deliver, false, false, None)))
  }

  function AckResponse(c: Cursor, ref: RunText): Response {
    if AckCode(c, ref) == 0 then Succeeded(None) else Failed(AckCode(c, ref))
  }

  function InterruptResponse(w: Worker): Response {
    if w.cursor.slot == Idle || (w.cursor.slot.Active? && Returned(w)) then Failed(NOT_RUNNING) else Succeeded(None)
  }

  /** The reader's dispatch of one request. */
  function ReceiveCall(w: Worker, id: nat, r: Request): Worker {
    match r.verb
    case Execute => ReceiveRun(w, id, r)
    case Deliver =>
      if r.run.Some? then ReceiveRun(w, id, r)
      else if w.cursor.slot == Closing then Owe(w, id, Decided(Succeeded(None)))
      else Owe(w, id, Native(w.cursor.slot.Active?))
    case Ack =>
      var ref := if r.ref.Some? then r.ref.value else Malformed;
      Owe(w, id, Decided(AckResponse(w.cursor, ref))).(cursor := Acknowledge(w.cursor, ref))
    case Interrupt => Owe(w, id, Decided(InterruptResponse(w)))
    case Close =>
      if w.cursor.slot == Closing then w.(dead := true)
      else Owe(w, id, Shutting).(cursor := CloseSlot(w.cursor))
    case _ =>
      if w.waiters >= MAX_OPERATIONS || w.cursor.slot == Closing then Owe(w, id, Decided(Failed(BUSY)))
      else Owe(w, id, Reading).(waiters := w.waiters + 1)
  }

  function Receive(w: Worker, f: Down): Worker {
    match f
    case ReadyAck(call) =>
      if w.turn.Some? && w.turn.value.announced == Some(call)
      then w.(cursor := Publish(w.cursor, w.turn.value.run), turn := None) else w.(dead := true)
    case Call(id, r) =>
      if id <= w.lastIn then w.(dead := true) else ReceiveCall(w.(lastIn := id), id, r)
  }

  /** The answers the product may still give to an owed call. */
  predicate MayAnswer(w: Worker, job: Job, response: Response) {
    match job
    case Decided(r) => response == r
    case Native(active) => response == Failed(NOT_RUNNING) || (active && (response.Succeeded? || response == Failed(INTERNAL)))
    case Reading => response.Succeeded? || response == Failed(UNKNOWN_SESSION)
    case Shutting => w.turn.None? && w.waiters == 0 && response.Succeeded?
  }

  datatype WorkerStep =
    | Settle(id: nat, response: Response)
    | AnswerTurn(response: Response)
    | Return
    | Announce(done: bool)

  /** The replies a run's own call may get: its reference, or the product's delivery receipt. */
  predicate MayAnswerTurn(t: Turn, response: Response) {
    if t.seeded then response.Succeeded? || response == Failed(INTERNAL) || response == Failed(NOT_RUNNING)
    else response == Succeeded(Some(t.run))
  }

  predicate Enabled(w: Worker, step: WorkerStep) {
    !w.dead &&
    match step
    case Settle(id, response) => id in w.jobs && MayAnswer(w, w.jobs[id], response)
    case AnswerTurn(response) => w.turn.Some? && !w.turn.value.answered && MayAnswerTurn(w.turn.value, response)
    case Return => w.turn.Some? && !w.turn.value.returned && (w.turn.value.seeded || w.turn.value.answered)
    case Announce(_) => w.turn.Some? && w.turn.value.returned && w.turn.value.answered && w.turn.value.announced.None?
  }

  function Advance(w: Worker, step: WorkerStep): Worker
    requires Enabled(w, step)
  {
    match step
    case Settle(id, response) =>
      w.(jobs := w.jobs - {id}, out := w.out + [Reply(id, response)],
         waiters := if w.jobs[id] == Reading && w.waiters > 0 then w.waiters - 1 else w.waiters,
         dead := w.jobs[id] == Shutting)
    case AnswerTurn(response) =>
      w.(turn := Some(w.turn.value.(answered := true)), out := w.out + [Reply(w.turn.value.call, response)])
    case Return => w.(turn := Some(w.turn.value.(returned := true)))
    case Announce(done) =>
      w.(nextCall := w.nextCall + 1, turn := Some(w.turn.value.(announced := Some(w.nextCall + 1))),
         out := w.out + [ReadyCall(w.nextCall + 1, w.turn.value.run, done)])
  }
}
