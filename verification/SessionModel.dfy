/**
  The daemon's side of one connection as a step function: routed requests are
  issued as frames, responses settle them, deliveries that cross a turn end are
  deferred, and a close waits behind a blocking run.
 */
module SessionModel {
  import opened Common
  import opened RunIds

  /** Public methods, and `Execute`, the form in which a run is written to a worker. */
  datatype Verb = Start | RunAndWait | Execute | Status | Wait | Ack | Interrupt | Deliver | Close

  datatype Answer = Refused(code: int) | Queued | Done

  /** A routed request; the ticket stands for its reply channel. */
  datatype Request = Request(ticket: nat, destination: nat, verb: Verb, run: Option<RunId>,
                             ref: Option<RunText>, collect: bool, scheduled: bool, completion: bool, traceCopy: bool)

  /** Frames the daemon writes to the worker. */
  datatype Down = Call(id: nat, request: Request) | ReadyAck(id: nat)

  /** What a worker answers to a call, after decoding. */
  datatype Response = Failed(code: int) | Succeeded(ref: Option<RunId>) | Undecodable

  /**
    What the loop cannot decide: whether the outbox has room for the n-th frame,
    whether the n-th call's body fits a frame, the random generation, and the
    lane policy.
   */
  datatype Env = Env(room: nat -> bool, fits: nat -> bool, generation: string, autoClose: nat, notifies: bool)

  const CLOSE_BOUND: nat := 10_000

  /** The directory entry this session serves. */
  datatype Entry = Entry(identity: nat, peer: bool, launching: bool, attached: bool, claimed: bool, running: bool)

  /** The run reservation. */
  datatype Runs = Runs(current: Option<RunId>, generation: Option<string>, sequence: nat, acknowledged: nat,
                       fromTrace: bool, fromCompletion: bool)

  /** Deadlines; zero is no deadline. */
  datatype Clock = Clock(now: nat, deadline: nat, previous: nat, armed: bool, closeTimer: Option<nat>)

  /** Calls written and not yet answered, deliveries promised a run, and the close in progress. */
  datatype Calls = Calls(nextOut: nat, pending: map<nat, Request>, deferred: seq<Request>, closeCall: Option<Request>)

  /** The wire: after `cut`, frames reach nobody. */
  datatype Wire = Wire(attempts: nat, cut: bool, sent: seq<Down>, stopping: bool, closed: bool)

  /**
    What each ticket was answered, what was logged for scheduled deliveries, the
    tickets promised a run and the tickets taken from the queue (both in order),
    and the automatic notices sent: for which run, and whether they may be traced.
   */
  datatype Books = Books(replies: map<nat, seq<Answer>>, notes: map<nat, seq<Answer>>,
                         queued: seq<nat>, popped: seq<nat>, notices: seq<Charge>)

  datatype Charge = Charge(run: RunId, traced: bool)

  datatype State = State(entry: Entry, runs: Runs, clock: Clock, calls: Calls, wire: Wire, books: Books)

  function Lane(identity: nat): State {
    State(Entry(identity, false, false, true, false, false), Runs(None, None, 0, 0, false, false),
          Clock(0, 0, 0, false, None), Calls(0, map[], [], None), Wire(0, false, [], false, false),
          Books(map[], map[], [], [], []))
  }

  function At(m: map<nat, seq<Answer>>, t: nat): seq<Answer> { if t in m then m[t] else [] }

  function Added(m: map<nat, seq<Answer>>, t: nat, a: Answer): map<nat, seq<Answer>> { m[t := At(m, t) + [a]] }

  /** A scheduled delivery already answered its caller: its later outcome is only logged. */
  function Noted(b: Books, r: Request, a: Answer): Books {
    if r.scheduled then b.(notes := Added(b.notes, r.ticket, a))
    else b.(replies := Added(b.replies, r.ticket, a))
  }

  function AnswerRouted(s: State, r: Request, a: Answer): State { s.(books := Noted(s.books, r, a)) }

  /** Closing the descriptor: frames sent from here on reach nobody. */
  function CloseWire(s: State): State { s.(wire := s.wire.(cut := true)) }

  function HardStop(s: State): State { s.(wire := s.wire.(cut := true, stopping := true)) }

  /** One attempt to write a frame; a full outbox also closes the wire. */
  function Send(e: Env, w: Wire, f: Down): Wire {
    w.(attempts := w.attempts + 1,
       sent := if e.room(w.attempts) && !w.cut then w.sent + [f] else w.sent,
       cut := w.cut || !e.room(w.attempts))
  }

  function SetDeadline(c: Clock, at: nat): Clock { c.(deadline := at, armed := at != 0) }

  function NextRun(e: Env, runs: Runs): RunId {
    RunId(if runs.generation.Some? then runs.generation.value else e.generation, runs.sequence + 1)
  }

  function ReserveRun(e: Env, s: State): State {
    var id := NextRun(e, s.runs);
    s.(runs := Runs(Some(id), Some(id.generation), id.sequence, s.runs.acknowledged, false, false),
       clock := SetDeadline(s.clock, 0).(previous := s.clock.deadline))
  }

  function FinishRun(t: Entry): Entry { if t.attached then t.(running := false) else t }

  /** Go's uint64 decrement. */
  function Less(n: nat): nat { if n == 0 then UINT64_LIMIT - 1 else n - 1 }

  function RefuseRun(s: State, id: Option<RunId>): State {
    if id.None? || s.runs.current != id then s else
    s.(runs := s.runs.(current := None, fromTrace := false, fromCompletion := false, sequence := Less(s.runs.sequence)),
       entry := FinishRun(s.entry), clock := SetDeadline(s.clock, s.clock.previous))
  }

  /** Retained records plus promised ones stay below the worker's table size (uint64 arithmetic). */
  predicate HasRunCapacity(s: State) {
    U64(U64(s.runs.sequence - s.runs.acknowledged) + |s.calls.deferred|) < MAX_OPERATIONS
  }

  /** The directory's admission of a method; zero is admission. */
  function Admit(t: Entry, v: Verb): int {
    if !t.attached then NOT_CONNECTED
    else if t.claimed && v != Deliver then BUSY
    else if v == Execute && t.running then BUSY
    else if v == Interrupt && !t.running then NOT_RUNNING
    else 0
  }

  /** A public run request becomes an execute; the blocking form also collects the result. */
  function Normalized(r: Request): Request {
    if r.verb == Start || r.verb == RunAndWait
    then r.(verb := Execute, collect := r.verb == RunAndWait) else r
  }

  predicate Seeds(s: State, r: Request) { r.verb == Deliver && !s.entry.peer && s.runs.current.None? }

  predicate CarriesBody(v: Verb) { v == Execute || v == Deliver }

  /** The first check a request fails, as the code it is refused with; zero lets it through. */
  function Refusal(s: State, r0: Request): int {
    var r := Normalized(r0);
    if s.calls.closeCall.Some? && !r0.collect then BUSY
    else if |s.calls.pending| + |s.calls.deferred| >= MAX_PENDING_CALLS then BUSY
    else if Admit(s.entry, r.verb) != 0 then Admit(s.entry, r.verb)
    else if r.verb == Close then 0
    else if (r.verb == Execute || Seeds(s, r)) && !HasRunCapacity(s) then BUSY
    else if Seeds(s, r) && s.calls.closeCall.Some? then BUSY
    else 0
  }

  function Issue(e: Env, s: State, r0: Request): (t: State)
    ensures |t.calls.deferred| <= |s.calls.deferred|
  {
    var r := Normalized(r0);
    if Refusal(s, r0) != 0 then AnswerRouted(s, r, Refused(Refusal(s, r0)))
    else if r.verb == Close then BeginClose(e, s, r)
    else if r.verb == Execute || Seeds(s, r) then Launch(e, s, r)
    else Write(e, s, r)
  }

  /** Reserve the next run for r and write it; a delivery hands its provenance to the run it seeds. */
  function Launch(e: Env, s: State, r: Request): (t: State)
    ensures t.calls.deferred == s.calls.deferred
  {
    var s1 := ReserveRun(e, s);
    Write(e, s1.(runs := s1.runs.(fromTrace := r.verb == Deliver && r.traceCopy,
                                  fromCompletion := r.verb == Deliver && r.completion)),
          r.(run := s1.runs.current))
  }

  /** Number, encode and send one call; a call that cannot be sent is undone and answered. */
  function Write(e: Env, s: State, r: Request): (t: State)
    ensures t.calls.deferred == s.calls.deferred
  {
    var id := s.calls.nextOut + 1;
    var s1 := s.(calls := s.calls.(nextOut := id));
    if CarriesBody(r.verb) && !e.fits(id) then
      AnswerRouted(RefuseRun(s1, r.run), r, Refused(NOT_CONNECTED))
    else
      var s2 := s1.(wire := Send(e, s.wire, Call(id, r)));
      if !e.room(s.wire.attempts) then AnswerRouted(RefuseRun(s2, r.run), r, Refused(NOT_CONNECTED))
      else s2.(entry := s.entry.(running := s.entry.running || r.run.Some?),
               calls := s2.calls.(pending := s.calls.pending[id := r]))
  }

  /** Give up every promised delivery, in order; each outcome is logged. */
  function GivenUp(b: Books, rs: seq<Request>, code: int): Books
    decreases |rs|
  {
    if rs == [] then b else
    GivenUp(Noted(b, rs[0], Refused(code)).(popped := b.popped + [rs[0].ticket]), rs[1..], code)
  }

  function SettleDeferred(s: State, code: int): State {
    s.(books := GivenUp(s.books, s.calls.deferred, code), calls := s.calls.(deferred := []))
  }

  function BeginClose(e: Env, s: State, r: Request): (t: State)
    ensures t.calls.deferred == []
  {
    var s1 := SettleDeferred(s, BUSY);
    WriteDeferredClose(e, s1.(calls := s1.calls.(closeCall := Some(r)),
                              clock := s.clock.(armed := false, closeTimer := Some(s.clock.now + CLOSE_BOUND))))
  }

  predicate BlocksClose(r: Request) { r.verb == Close || (r.verb == Execute && r.collect) }

  predicate CloseBlocked(pending: map<nat, Request>) { exists id :: id in pending && BlocksClose(pending[id]) }

  /** Written only once no blocking execute is still waiting for its read. */
  function WriteDeferredClose(e: Env, s: State): (t: State)
    ensures t.calls.deferred == s.calls.deferred
  {
    if s.calls.closeCall.None? || s.wire.closed || s.wire.stopping || CloseBlocked(s.calls.pending) then s else
    var r := s.calls.closeCall.value;
    var id := s.calls.nextOut + 1;
    var s1 := s.(wire := Send(e, s.wire, Call(id, r)));
    if !e.room(s.wire.attempts) then HardStop(s1).(calls := s.calls.(nextOut := id))
    else s1.(entry := s.entry.(claimed := true), calls := s.calls.(nextOut := id, pending := s.calls.pending[id := r]))
  }

  function OrderlyStop(s: State): State {
    HardStop(s).(clock := s.clock.(closeTimer :=
      if s.clock.closeTimer.None? then Some(s.clock.now + CLOSE_BOUND) else s.clock.closeTimer))
  }

  /** Take the head of the queue. */
  function Popped(s: State): State
    requires s.calls.deferred != []
  {
    s.(calls := s.calls.(deferred := s.calls.deferred[1..]),
       books := s.books.(popped := s.books.popped + [s.calls.deferred[0].ticket]))
  }

  /** Drain the queue one run at a time, in order. */
  function StartDeferred(e: Env, s: State): State
    decreases |s.calls.deferred|
  {
    if s.runs.current.Some? || s.calls.deferred == [] then s else
    StartDeferred(e, Issue(e, Popped(s), s.calls.deferred[0]))
  }

  function RecordAcknowledgment(runs: Runs, ref: Option<RunText>): Runs {
    if ref.Some? && !ref.value.Malformed? && runs.generation == Some(ref.value.id.generation)
       && runs.acknowledged < ref.value.id.sequence <= runs.sequence
    then runs.(acknowledged := ref.value.id.sequence) else runs
  }

  /** NotRunning on an ordinary delivery: nothing was submitted, so it may become a run of its own. */
  predicate Retained(s: State, r: Request, response: Response) {
    response == Failed(NOT_RUNNING) && r.verb == Deliver && r.run.None? && !s.entry.peer && s.calls.closeCall.None?
  }

  function Retain(e: Env, s: State, r: Request): State {
    if s.runs.current.None? then Issue(e, s, r)
    else if !HasRunCapacity(s) then AnswerRouted(s, r, Refused(BUSY))
    else s.(calls := s.calls.(deferred := s.calls.deferred + [r.(scheduled := true)]),
            books := Noted(s.books, r, Queued).(queued := s.books.queued + [r.ticket]))
  }

  function FailResponse(e: Env, s: State, r: Request, code: int): State {
    var s1 := if r.verb == Execute || code != INTERNAL then RefuseRun(s, r.run) else s;
    StartDeferred(e, AnswerRouted(s1, r, Refused(code)))
  }

  /** The blocking form reads its own result before anything else may close the lane. */
  function Collector(r: Request, id: RunId): Request {
    r.(verb := Wait, run := None, ref := Some(Exact(id)))
  }

  function SettleResponse(e: Env, s: State, r: Request, response: Response): State {
    if r.destination != s.entry.identity || !s.entry.attached then AnswerRouted(s, r, Refused(NOT_CONNECTED))
    else if r.verb == Close then
      (if response.Succeeded? then OrderlyStop(s) else CloseWire(s))
    else if Retained(s, r, response) then Retain(e, s, r)
    else match response
      case Failed(code) => FailResponse(e, s, r, code)
      case Undecodable => AnswerRouted(CloseWire(s), r, Refused(NOT_CONNECTED))
      case Succeeded(ref) =>
        if r.verb == Execute && (ref.None? || ref != r.run) then AnswerRouted(CloseWire(s), r, Refused(NOT_CONNECTED))
        else if r.verb == Execute && r.collect then Issue(e, s, Collector(r, ref.value))
        else if r.verb == Ack then AnswerRouted(s.(runs := RecordAcknowledgment(s.runs, r.ref)), r, Done)
        else AnswerRouted(s, r, Done)
  }

  function ReceiveResponse(e: Env, s: State, id: nat, response: Response): State {
    if id !in s.calls.pending then HardStop(s) else
    var r := s.calls.pending[id];
    var s1 := SettleResponse(e, s.(calls := s.calls.(pending := s.calls.pending - {id})), r, response);
    if r.verb == Execute && r.collect then WriteDeferredClose(e, s1) else s1
  }

  predicate ReadyMatches(s: State, id: RunId) { !s.entry.peer && s.runs.current == Some(id) }

  /** The state in which a matching turn.ready has just been acknowledged. */
  function TurnAcked(e: Env, s: State, call: nat, done: bool): State {
    s.(wire := Send(e, s.wire, ReadyAck(call)), entry := FinishRun(s.entry), runs := s.runs.(current := None, fromTrace := false, fromCompletion := false),
       clock := if done && e.autoClose > 0 && s.calls.closeCall.None?
                then SetDeadline(s.clock, s.clock.now + e.autoClose) else s.clock)
  }

  /** The run is over for the daemon; its acknowledgement is written before any later command. */
  function TurnReady(e: Env, s: State, call: nat, id: RunId, done: bool): State {
    if !ReadyMatches(s, id) then HardStop(s) else
    var s2 := StartDeferred(e, TurnAcked(e, s, call, done));
    if e.notifies && !s.runs.fromCompletion && s2.calls.closeCall.None?
    then s2.(books := s2.books.(notices := s2.books.notices + [Charge(id, !s.runs.fromTrace)])) else s2
  }

  function CloseTicket(c: Calls): Option<nat> {
    if c.closeCall.Some? then Some(c.closeCall.value.ticket) else None
  }

  /** Call id is answered, or only logged, on ticket t; the close call is answered elsewhere. */
  predicate Holds(c: Calls, id: nat, t: nat, scheduled: bool) {
    id in c.pending && c.pending[id].ticket == t && c.pending[id].scheduled == scheduled
    && (scheduled || CloseTicket(c) != Some(t))
  }

  function Holders(c: Calls, t: nat, scheduled: bool): set<nat> {
    set id | id in c.pending && Holds(c, id, t, scheduled)
  }

  function Repeat(a: Answer, n: nat): seq<Answer> { seq(n, _ => a) }

  /** Every pending call is answered, except the close call, which the end of the loop answers. */
  function Settled(c: Calls, m: map<nat, seq<Answer>>, code: int, scheduled: bool): map<nat, seq<Answer>> {
    map t | t in m.Keys + (set id | id in c.pending && Holds(c, id, c.pending[id].ticket, scheduled) :: c.pending[id].ticket)
      :: At(m, t) + Repeat(Refused(code), |Holders(c, t, scheduled)|)
  }

  lemma SettledAt(c: Calls, m: map<nat, seq<Answer>>, code: int, scheduled: bool, t: nat)
    ensures t in Settled(c, m, code, scheduled) <==> t in m || Holders(c, t, scheduled) != {}
    ensures At(Settled(c, m, code, scheduled), t) == At(m, t) + Repeat(Refused(code), |Holders(c, t, scheduled)|)
  {
    var more := set id | id in c.pending && Holds(c, id, c.pending[id].ticket, scheduled) :: c.pending[id].ticket;
    forall id: nat | Holds(c, id, t, scheduled)
      ensures t in more
    {
      assert c.pending[id].ticket in more;
    }
    if t in more {
      var id :| id in c.pending && Holds(c, id, c.pending[id].ticket, scheduled) && c.pending[id].ticket == t;
      assert id in Holders(c, t, scheduled);
    } else {
      assert Holders(c, t, scheduled) == {};
    }
  }

  function SettlePending(s: State, code: int): State {
    var s1 := SettleDeferred(s, code);
    s1.(calls := s1.calls.(pending := map[]),
        books := s1.books.(replies := Settled(s1.calls, s1.books.replies, code, false),
                           notes := Settled(s1.calls, s1.books.notes, code, true)))
  }

  function ConnectionClosed(s: State): State {
    if s.wire.closed then s else
    SettlePending(s.(wire := s.wire.(stopping := true, closed := true, cut := true),
                     clock := s.clock.(armed := false),
                     entry := s.entry.(attached := false, running := false, claimed := s.entry.claimed || !s.entry.peer)),
                  NOT_CONNECTED)
  }

  /** A retirement the daemon decides by itself: auto-close, or the end of the owner. */
  function PolicyClose(e: Env, s: State, ticket: nat): State {
    if s.wire.stopping || s.calls.closeCall.Some? || s.entry.launching || s.entry.peer then s else
    BeginClose(e, s, Request(ticket, s.entry.identity, Close, None, None, false, false, false, false))
  }

  /** A peer announced another identity on the same connection. */
  function Identify(s: State, identity: nat): State {
    if !s.entry.peer || s.wire.stopping then s else
    var s1 := SettlePending(s, NOT_CONNECTED);
    s1.(entry := s1.entry.(identity := identity))
  }

  /**
    The end of a lane's loop: the close call, if any, is answered here and nowhere
    else. It fails only if the lane was to be forgotten and its row is still there.
   */
  function FinishLane(s: State, forget: bool, deleted: bool): State {
    if s.calls.closeCall.None? then s
    else AnswerRouted(s, s.calls.closeCall.value, if forget && !deleted then Refused(INTERNAL) else Done)
  }

  datatype Event =
    | Routed(request: Request)
    | Answered(id: nat, response: Response)
    | Ready(call: nat, run: RunId, done: bool)
    | Disconnected
    | Retire(ticket: nat)
    | CloseExpired
    | Renamed(identity: nat)
    | Tick(now: nat)

  function Handle(e: Env, s: State, event: Event): State {
    match event
    case Routed(r) =>
      if s.wire.stopping || r.destination != s.entry.identity || s.entry.launching
      then AnswerRouted(s, r, Refused(NOT_CONNECTED)) else Issue(e, s, r)
    case Answered(id, response) => if s.wire.stopping then s else ReceiveResponse(e, s, id, response)
    case Ready(call, id, done) => if s.wire.stopping then s else TurnReady(e, s, call, id, done)
    case Disconnected => ConnectionClosed(s)
    case Retire(ticket) => PolicyClose(e, s, ticket)
    case CloseExpired =>
      if s.clock.closeTimer.Some? then HardStop(s).(clock := s.clock.(closeTimer := None)) else s
    case Renamed(identity) => Identify(s, identity)
    case Tick(now) => if now >= s.clock.now then s.(clock := s.clock.(now := now)) else s
  }

  /** What a caller may post: a public method, not yet a run, its own answer outstanding. */
  predicate Fresh(r: Request) {
    r.run.None? && !r.collect && !r.scheduled && r.verb != Execute && (r.verb == Ack ==> r.ref.Some?)
  }
}
