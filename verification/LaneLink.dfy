/**
  A daemon session and a worker joined by two FIFO channels. Either channel is
  kept as the whole sequence of frames written, with the reader's position.
 */
module LaneLink {
  import opened Common
  import opened RunIds
  import opened SessionModel
  import opened SessionProofs
  import opened WorkerModel

  datatype System = System(d: State, w: Worker, dr: nat, ur: nat)

  datatype Step =
    | Daemon(event: Event)
    | DaemonReads
    | WorkerReads
    | WorkerActs(step: WorkerStep)

  function Opened(identity: nat): System { System(Lane(identity), NewWorker(), 0, 0) }

  /** Events that do not come from this worker. */
  predicate External(event: Event) {
    match event
    case Routed(r) => Fresh(r)
    case Answered(_, _) => false
    case Ready(_, _, _) => false
    case Renamed(_) => false
    case _ => true
  }

  function EventOf(u: Up): Event {
    match u
    case Reply(id, response) => Event.Answered(id, response)
    case ReadyCall(id, run, done) => Event.Ready(id, run, done)
  }

  function Next(e: Env, sys: System, step: Step): System {
    match step
    case Daemon(event) => if External(event) then sys.(d := Handle(e, sys.d, event)) else sys
    case DaemonReads =>
      if sys.ur < |sys.w.out| then sys.(d := Handle(e, sys.d, EventOf(sys.w.out[sys.ur])), ur := sys.ur + 1) else sys
    case WorkerReads =>
      if sys.dr < |sys.d.wire.sent| && !sys.w.dead
      then sys.(w := Receive(sys.w, sys.d.wire.sent[sys.dr]), dr := sys.dr + 1) else sys
    case WorkerActs(s) => if Enabled(sys.w, s) then sys.(w := Advance(sys.w, s)) else sys
  }

  /** The product's side of the contract: it never refuses a seeded run it was given. */
  predicate Honest(step: Step) {
    step != WorkerActs(AnswerTurn(Failed(NOT_RUNNING)))
  }

  // ---- the worker alone ----

  ghost predicate RecordsOk(c: Cursor) {
    && c.open && c.acknowledged <= c.last && |c.records| == c.last - c.acknowledged
    && (c.generation.None? ==> c.last == 0)
    && (forall i :: 0 <= i < |c.records| ==> c.records[i].id.sequence == c.acknowledged + 1 + i)
    && (forall i :: 0 <= i < |c.records| ==> c.generation == Some(c.records[i].id.generation))
  }

  ghost predicate TurnOk(c: Cursor, turn: Option<Turn>) {
    && (forall i :: 0 <= i < |c.records| ==> (c.records[i].running <==> turn.Some? && i == |c.records| - 1))
    && (turn.None? ==> c.slot == Idle || c.slot == Closing)
    && (turn.Some? ==>
          && |c.records| > 0 && c.records[|c.records| - 1].id == turn.value.run
          && (c.slot == Active(turn.value.run) || c.slot == Closing)
          && (turn.value.announced.Some? ==> turn.value.answered && turn.value.returned))
  }

  ghost predicate WorkerOk(w: Worker) { RecordsOk(w.cursor) && TurnOk(w.cursor, w.turn) }

  // ---- frames on their way to the worker ----

  ghost predicate Acks(f: Down, turn: Option<Turn>) { f.ReadyAck? && turn.Some? && turn.value.announced == Some(f.id) }

  ghost predicate AckUnread(sent: seq<Down>, lo: nat, hi: nat, turn: Option<Turn>)
    requires hi <= |sent|
  {
    exists k :: lo <= k < hi && Acks(sent[k], turn)
  }

  ghost predicate NoRun(sent: seq<Down>, dr: nat) { forall i :: dr <= i < |sent| ==> !RunFrame(sent[i]) }

  ghost predicate NoAck(sent: seq<Down>, dr: nat) { forall i :: dr <= i < |sent| ==> sent[i].Call? }

  /** The next run the table can take. */
  ghost predicate Takes(c: Cursor, id: RunId) {
    && id.sequence == c.last + 1 && |c.records| < MAX_OPERATIONS
    && (c.generation.Some? ==> c.generation == Some(id.generation))
  }

  ghost predicate Numbered(sent: seq<Down>, dr: nat, lastIn: nat) {
    forall i :: dr <= i < |sent| && sent[i].Call? ==> sent[i].id > lastIn
  }

  /** At most one run is on its way; the table takes it, once the running turn is acknowledged. */
  ghost predicate RunsAhead(sent: seq<Down>, dr: nat, c: Cursor, turn: Option<Turn>) {
    && (forall i, j :: dr <= i < j < |sent| ==> !(RunFrame(sent[i]) && RunFrame(sent[j])))
    && (forall i :: dr <= i < |sent| && RunFrame(sent[i]) ==>
          Takes(c, sent[i].request.run.value) && (turn.None? || AckUnread(sent, dr, i, turn)))
  }

  /** At most one acknowledgement is on its way, for the announced turn. */
  ghost predicate AcksAhead(sent: seq<Down>, dr: nat, turn: Option<Turn>) {
    && (forall i :: dr <= i < |sent| && sent[i].ReadyAck? ==> Acks(sent[i], turn))
    && (forall i, j :: dr <= i < j < |sent| ==> !(sent[i].ReadyAck? && sent[j].ReadyAck?))
  }

  ghost predicate ClosedBehind(sent: seq<Down>, dr: nat, slot: Slot)
    requires dr <= |sent|
  {
    slot == Closing ==> exists k :: 0 <= k < dr && CloseFrame(sent[k])
  }

  ghost predicate StreamOk(sent: seq<Down>, dr: nat, w: Worker) {
    && dr <= |sent| && Numbered(sent, dr, w.lastIn) && RunsAhead(sent, dr, w.cursor, w.turn)
    && AcksAhead(sent, dr, w.turn) && ClosedBehind(sent, dr, w.cursor.slot)
  }

  // ---- the two ends together ----

  ghost predicate NoReady(out: seq<Up>, ur: nat) { forall k :: ur <= k < |out| ==> out[k].Reply? }

  /** Which run each end believes in. */
  ghost predicate PairOk(v: View, w: Worker, dr: nat, ur: nat) {
    && v.acknowledged <= w.cursor.acknowledged
    && (w.cursor.generation.Some? ==> v.generation == w.cursor.generation)
    && (v.current.Some? ==> v.generation == Some(v.current.value.generation) && v.current.value.sequence == v.sequence)
    && (v.current.None? ==>
          && v.sequence == w.cursor.last && NoRun(v.sent, dr) && NoReady(w.out, ur)
          && (w.turn.None? || (w.turn.value.announced.Some? && (v.cut || AckUnread(v.sent, dr, |v.sent|, w.turn)))))
    && (v.current.Some? && v.sequence != w.cursor.last ==>
          && v.sequence == w.cursor.last + 1 && NoReady(w.out, ur)
          && (w.turn.None? || w.turn.value.announced.Some?)
          && (forall i :: dr <= i < |v.sent| && RunFrame(v.sent[i]) ==> v.sent[i].request.run == v.current))
    && (v.current.Some? && v.sequence == w.cursor.last ==>
          && NoRun(v.sent, dr) && NoAck(v.sent, dr) && w.turn.Some? && w.turn.value.run == v.current.value
          && (w.turn.value.announced.None? ==> NoReady(w.out, ur)))
  }

  ghost predicate ReadyOk(v: View, w: Worker, ur: nat) {
    && (forall k :: ur <= k < |w.out| && w.out[k].ReadyCall? ==>
          && v.current == Some(w.out[k].run) && v.sequence == w.cursor.last
          && w.turn.Some? && w.turn.value.announced == Some(w.out[k].id))
    && (forall k, l :: ur <= k < l < |w.out| ==> !(w.out[k].ReadyCall? && w.out[l].ReadyCall?))
  }

  /** The worker acknowledged at least as far as this reference. */
  ghost predicate Released(c: Cursor, ref: Option<RunText>) {
    && ref.Some? && ref.value.Exact? && c.generation == Some(ref.value.id.generation)
    && ref.value.id.sequence <= c.acknowledged
  }

  ghost predicate ReplyOk(c: Cursor, r: Request, response: Response) {
    RunReply(r, response) && (r.verb == Ack && response.Succeeded? ==> Released(c, r.ref))
  }

  ghost predicate JobOk(c: Cursor, r: Request, job: Job) {
    && r.run.None? && r.verb != Execute
    && (match job
        case Decided(response) => ReplyOk(c, r, response)
        case _ => r.verb != Ack)
  }

  ghost predicate Replied(out: seq<Up>, id: nat) { exists k :: 0 <= k < |out| && out[k].Reply? && out[k].id == id }

  /** Every call is in flight, owed, or answered and unread, and never in two of these places. */
  ghost predicate MatchOk(v: View, w: Worker, dr: nat, ur: nat) {
    && w.lastIn <= v.nextOut
    && (forall i :: dr <= i < |v.sent| && v.sent[i].Call? ==>
          v.sent[i].id <= v.nextOut && v.sent[i].id in v.pending && v.pending[v.sent[i].id] == v.sent[i].request)
    && (forall id :: id in w.jobs ==>
          id <= w.lastIn && id in v.pending && JobOk(w.cursor, v.pending[id], w.jobs[id]) && !Replied(w.out, id))
    && (w.turn.Some? && !w.turn.value.answered ==>
          && w.turn.value.call <= w.lastIn && w.turn.value.call in v.pending && w.turn.value.call !in w.jobs
          && !Replied(w.out, w.turn.value.call)
          && v.pending[w.turn.value.call].run == Some(w.turn.value.run)
          && (w.turn.value.seeded <==> v.pending[w.turn.value.call].verb == Deliver))
    && (forall k :: 0 <= k < |w.out| && w.out[k].Reply? ==> w.out[k].id <= w.lastIn)
    && (forall k, l :: 0 <= k < l < |w.out| && w.out[k].Reply? && w.out[l].Reply? ==> w.out[k].id != w.out[l].id)
    && (forall k :: ur <= k < |w.out| && w.out[k].Reply? ==>
          w.out[k].id in v.pending && ReplyOk(w.cursor, v.pending[w.out[k].id], w.out[k].response))
  }

  ghost predicate Joint(v: View, w: Worker, dr: nat, ur: nat) { PairOk(v, w, dr, ur) && ReadyOk(v, w, ur) && MatchOk(v, w, dr, ur) }

  ghost predicate DaemonOk(d: State) { Inv(d) && Bounded(ViewOf(d)) && !d.entry.peer }

  /** The joint invariant of a lane. */
  ghost predicate LinkInv(sys: System) {
    && DaemonOk(sys.d) && WorkerOk(sys.w) && StreamOk(sys.d.wire.sent, sys.dr, sys.w) && sys.ur <= |sys.w.out|
    && (!sys.d.wire.stopping ==> Joint(ViewOf(sys.d), sys.w, sys.dr, sys.ur))
  }

  // ---- what a session step does to the pair ----

  lemma StillJoint(v: View, u: View, w: Worker, dr: nat, ur: nat)
    requires Joint(v, w, dr, ur) && Still(v, u)
    ensures Joint(u, w, dr, ur)
  {
  }

  lemma AckStaysUnread(sent: seq<Down>, f: Down, lo: nat, hi: nat, turn: Option<Turn>)
    requires hi <= |sent| && AckUnread(sent, lo, hi, turn)
    ensures AckUnread(sent + [f], lo, hi, turn)
  {
    var k :| lo <= k < hi && Acks(sent[k], turn);
    assert (sent + [f])[k] == sent[k];
  }

  lemma RunsAppend(sent: seq<Down>, f: Down, dr: nat, c: Cursor, turn: Option<Turn>)
    requires dr <= |sent| && RunsAhead(sent, dr, c, turn)
    requires RunFrame(f) ==> NoRun(sent, dr) && Takes(c, f.request.run.value) && (turn.None? || AckUnread(sent, dr, |sent|, turn))
    ensures RunsAhead(sent + [f], dr, c, turn)
  {
    var q := sent + [f];
    assert forall i :: 0 <= i < |sent| ==> q[i] == sent[i];
    forall i | dr <= i < |q| && RunFrame(q[i])
      ensures Takes(c, q[i].request.run.value) && (turn.None? || AckUnread(q, dr, i, turn))
    {
      if turn.Some? {
        AckStaysUnread(sent, f, dr, i, turn);
      }
    }
  }

  lemma StreamAppend(sent: seq<Down>, f: Down, dr: nat, w: Worker)
    requires StreamOk(sent, dr, w)
    requires RunFrame(f) ==> NoRun(sent, dr) && Takes(w.cursor, f.request.run.value)
    requires RunFrame(f) ==> w.turn.None? || AckUnread(sent, dr, |sent|, w.turn)
    requires f.ReadyAck? ==> NoAck(sent, dr) && Acks(f, w.turn)
    requires f.Call? ==> f.id > w.lastIn
    ensures StreamOk(sent + [f], dr, w)
  {
    var q := sent + [f];
    assert forall i :: 0 <= i < |sent| ==> q[i] == sent[i];
    RunsAppend(sent, f, dr, w.cursor, w.turn);
  }

  lemma CallMatch(v: View, u: View, r: Request, w: Worker, dr: nat, ur: nat)
    requires MatchOk(v, w, dr, ur) && Wrote(v, u, r) && StreamOk(v.sent, dr, w)
    ensures MatchOk(u, w, dr, ur)
  {
    assert forall id :: id in v.pending && id != u.nextOut ==> u.pending[id] == v.pending[id];
  }

  lemma AckStillUnread(v: View, u: View, r: Request, dr: nat, turn: Option<Turn>)
    requires Wrote(v, u, r) && AckUnread(v.sent, dr, |v.sent|, turn)
    ensures AckUnread(u.sent, dr, |u.sent|, turn)
  {
    var k :| dr <= k < |v.sent| && Acks(v.sent[k], turn);
    assert u.sent[k] == v.sent[k];
  }

  lemma CallPair(v: View, u: View, r: Request, w: Worker, dr: nat, ur: nat)
    requires PairOk(v, w, dr, ur) && Wrote(v, u, r) && SameRuns(v, u) && r.run.None? && dr <= |v.sent|
    ensures PairOk(u, w, dr, ur)
  {
    assert forall i :: 0 <= i < |v.sent| ==> u.sent[i] == v.sent[i];
    assert forall i :: |v.sent| <= i < |u.sent| ==> u.sent[i] == Call(u.nextOut, r);
    if w.turn.Some? && v.current.None? && !v.cut {
      AckStillUnread(v, u, r, dr, w.turn);
    }
  }

  lemma LaunchPair(v: View, u: View, r: Request, w: Worker, dr: nat, ur: nat)
    requires PairOk(v, w, dr, ur) && Launched(v, u, r) && dr <= |v.sent|
    ensures PairOk(u, w, dr, ur)
  {
    assert forall i :: 0 <= i < |v.sent| ==> u.sent[i] == v.sent[i];
    assert forall i :: |v.sent| <= i < |u.sent| ==> u.sent[i] == Call(u.nextOut, r);
  }

  /** A launched run is one the worker's table takes. */
  lemma LaunchTaken(v: View, u: View, r: Request, w: Worker, dr: nat, ur: nat)
    requires PairOk(v, w, dr, ur) && Launched(v, u, r) && RecordsOk(w.cursor) && Bounded(v)
    ensures Takes(w.cursor, r.run.value)
  {
  }

  lemma MovedStream(v: View, u: View, w: Worker, dr: nat, ur: nat)
    requires Joint(v, w, dr, ur) && StreamOk(v.sent, dr, w) && RecordsOk(w.cursor) && Bounded(v) && Moved(v, u)
    ensures StreamOk(u.sent, dr, w)
  {
    if !Still(v, u) && !u.cut {
      var r := Newest(u);
      if r.run.Some? {
        LaunchTaken(v, u, r, w, dr, ur);
      }
      StreamAppend(v.sent, Call(u.nextOut, r), dr, w);
    }
  }

  /** Whatever the daemon issues, the two ends keep agreeing. */
  lemma MovedJoint(v: View, u: View, w: Worker, dr: nat, ur: nat)
    requires Joint(v, w, dr, ur) && StreamOk(v.sent, dr, w) && Moved(v, u)
    ensures Joint(u, w, dr, ur)
  {
    if Still(v, u) {
      StillJoint(v, u, w, dr, ur);
    } else {
      var r := Newest(u);
      CallMatch(v, u, r, w, dr, ur);
      if r.run.None? {
        CallPair(v, u, r, w, dr, ur);
      } else {
        LaunchPair(v, u, r, w, dr, ur);
      }
      assert ReadyOk(u, w, ur);
    }
  }

  /** Reading one response removes its call and nothing else. */
  lemma RemovedJoint(v: View, w: Worker, dr: nat, ur: nat)
    requires Joint(v, w, dr, ur) && StreamOk(v.sent, dr, w) && ur < |w.out| && w.out[ur].Reply?
    ensures Joint(v.(pending := v.pending - {w.out[ur].id}), w, dr, ur + 1)
  {
    var id := w.out[ur].id;
    var u := v.(pending := v.pending - {id});
    assert forall k :: k in v.pending && k != id ==> k in u.pending && u.pending[k] == v.pending[k];
    assert Replied(w.out, id);
    assert MatchOk(u, w, dr, ur + 1);
  }

  lemma RespondedJoint(v: View, u: View, r: Request, response: Response, w: Worker, dr: nat, ur: nat)
    requires Joint(v, w, dr, ur) && StreamOk(v.sent, dr, w) && Responded(v, u, r, response) && ReplyOk(w.cursor, r, response)
    ensures Joint(u, w, dr, ur)
  {
    if Moved(v, u) {
      MovedJoint(v, u, w, dr, ur);
    } else {
      assert MatchOk(u, w, dr, ur) && ReadyOk(u, w, ur) && PairOk(u, w, dr, ur);
    }
  }

  lemma RespondedStream(v: View, u: View, r: Request, response: Response, w: Worker, dr: nat, ur: nat)
    requires Joint(v, w, dr, ur) && StreamOk(v.sent, dr, w) && RecordsOk(w.cursor) && Bounded(v)
    requires Responded(v, u, r, response)
    ensures StreamOk(u.sent, dr, w)
  {
    if Moved(v, u) {
      MovedStream(v, u, w, dr, ur);
    }
  }

  /** The view right after a turn.ready was acknowledged. */
  predicate TurnOver(v: View, u: View, call: nat) {
    && u == v.(current := None, sent := u.sent, cut := u.cut) && (v.cut ==> u.cut)
    && u.sent == (if u.cut then v.sent else v.sent + [ReadyAck(call)])
  }

  lemma TurnOverJoint(v: View, u: View, w: Worker, dr: nat, ur: nat)
    requires Joint(v, w, dr, ur) && StreamOk(v.sent, dr, w) && ur < |w.out| && w.out[ur].ReadyCall?
    requires TurnOver(v, u, w.out[ur].id)
    ensures Joint(u, w, dr, ur + 1) && StreamOk(u.sent, dr, w)
  {
    var f := ReadyAck(w.out[ur].id);
    assert NoReady(w.out, ur + 1);
    assert Acks(f, w.turn);
    if !u.cut {
      StreamAppend(v.sent, f, dr, w);
      assert u.sent[|v.sent|] == f;
      assert forall i :: 0 <= i < |v.sent| ==> u.sent[i] == v.sent[i];
      assert AckUnread(u.sent, dr, |u.sent|, w.turn);
    }
    assert MatchOk(u, w, dr, ur + 1);
  }

  lemma TurnAckedView(e: Env, s: State, call: nat, done: bool)
    ensures TurnOver(ViewOf(s), ViewOf(TurnAcked(e, s, call, done)), call)
  {
  }

  // ---- the daemon reads ----

  lemma ReadyViews(v: View, m: View, u: View, w: Worker, dr: nat, ur: nat)
    requires Joint(v, w, dr, ur) && StreamOk(v.sent, dr, w) && RecordsOk(w.cursor)
    requires ur < |w.out| && w.out[ur].ReadyCall? && TurnOver(v, m, w.out[ur].id) && Bounded(m) && Moved(m, u)
    ensures Joint(u, w, dr, ur + 1) && StreamOk(u.sent, dr, w)
  {
    hide Joint, StreamOk, Moved, RecordsOk, Bounded, TurnOver;
    TurnOverJoint(v, m, w, dr, ur);
    MovedStream(m, u, w, dr, ur + 1);
    MovedJoint(m, u, w, dr, ur + 1);
  }

  lemma ReadyDaemon(e: Env, s: State, call: nat, id: RunId, done: bool)
    requires DaemonOk(s) && !s.wire.stopping && ReadyMatches(s, id)
    ensures var m := ViewOf(TurnAcked(e, s, call, done));
      var t := TurnReady(e, s, call, id, done);
      DaemonOk(t) && !t.wire.stopping && Bounded(m) && TurnOver(ViewOf(s), m, call) && Moved(m, ViewOf(t))
  {
    TurnReadyKept(e, s, call, id, done);
    TurnAckedView(e, s, call, done);
  }

  lemma Rejoined(sys: System, t: State, ur: nat)
    requires DaemonOk(t) && WorkerOk(sys.w) && ur <= |sys.w.out| && StreamOk(t.wire.sent, sys.dr, sys.w)
    requires !t.wire.stopping ==> Joint(ViewOf(t), sys.w, sys.dr, ur)
    ensures LinkInv(sys.(d := t, ur := ur))
  {
    hide DaemonOk, WorkerOk, StreamOk, Joint;
  }

  lemma ReadyExpected(v: View, w: Worker, dr: nat, ur: nat)
    requires Joint(v, w, dr, ur) && ur < |w.out| && w.out[ur].ReadyCall?
    ensures v.current == Some(w.out[ur].run)
  {
  }

  lemma ReadyStep(e: Env, sys: System)
    requires LinkInv(sys) && sys.ur < |sys.w.out| && sys.w.out[sys.ur].ReadyCall? && !sys.d.wire.stopping
    ensures LinkInv(Next(e, sys, DaemonReads))
  {
    hide Joint, StreamOk, Moved, RecordsOk, TurnOk, Bounded, TurnOver, Inv, TurnReady, TurnAcked;
    var u := sys.w.out[sys.ur];
    ReadyExpected(ViewOf(sys.d), sys.w, sys.dr, sys.ur);
    ReadyDaemon(e, sys.d, u.id, u.run, u.done);
    var t := TurnReady(e, sys.d, u.id, u.run, u.done);
    ReadyViews(ViewOf(sys.d), ViewOf(TurnAcked(e, sys.d, u.id, u.done)), ViewOf(t), sys.w, sys.dr, sys.ur);
    Rejoined(sys, t, sys.ur + 1);
  }

  lemma ReplyExpected(v: View, w: Worker, dr: nat, ur: nat)
    requires Joint(v, w, dr, ur) && ur < |w.out| && w.out[ur].Reply?
    ensures w.out[ur].id in v.pending && ReplyOk(w.cursor, v.pending[w.out[ur].id], w.out[ur].response)
  {
  }

  lemma ReplyViews(v: View, m: View, u: View, r: Request, w: Worker, dr: nat, ur: nat)
    requires Joint(v, w, dr, ur) && StreamOk(v.sent, dr, w) && RecordsOk(w.cursor)
    requires ur < |w.out| && w.out[ur].Reply? && w.out[ur].id in v.pending
    requires m == v.(pending := v.pending - {w.out[ur].id}) && Bounded(m)
    requires Responded(m, u, r, w.out[ur].response) && ReplyOk(w.cursor, r, w.out[ur].response)
    ensures Joint(u, w, dr, ur + 1) && StreamOk(u.sent, dr, w)
  {
    hide Joint, StreamOk, Responded, RecordsOk, ReplyOk;
    RemovedJoint(v, w, dr, ur);
    RespondedStream(m, u, r, w.out[ur].response, w, dr, ur + 1);
    RespondedJoint(m, u, r, w.out[ur].response, w, dr, ur + 1);
  }

  lemma CloseViews(v: View, u: View, w: Worker, dr: nat, ur: nat)
    requires Joint(v, w, dr, ur) && StreamOk(v.sent, dr, w) && RecordsOk(w.cursor) && Bounded(v) && Moved(v, u)
    ensures Joint(u, w, dr, ur) && StreamOk(u.sent, dr, w)
  {
    hide Joint, StreamOk, RecordsOk, Moved;
    MovedStream(v, u, w, dr, ur);
    MovedJoint(v, u, w, dr, ur);
  }

  lemma ReplySettles(e: Env, s: State, id: nat, response: Response)
    requires DaemonOk(s) && !s.wire.stopping && id in s.calls.pending && RunReply(s.calls.pending[id], response)
    ensures var m := Removed(s, id);
      Inv(m) && Bounded(ViewOf(m)) && Settles(m, SettleResponse(e, m, s.calls.pending[id], response), s.calls.pending[id], response)
  {
    var m := Removed(s, id);
    RemovedInv(s, id);
    assert Issued(s.calls.pending[id]);
    assert s.calls.closeCall.None? ==> NoClose(m.calls.pending);
    SettleResponseKept(e, m, s.calls.pending[id], response);
  }

  lemma CloseDaemon(e: Env, s: State)
    requires Inv(s) && Bounded(ViewOf(s)) && !s.wire.closed && !s.wire.stopping
    ensures var t := WriteDeferredClose(e, s);
      Inv(t) && Bounded(ViewOf(t)) && ClosedOrMoved(s, t) && t.entry.peer == s.entry.peer
  {
    DeferredCloseCore(e, s);
    assert s.calls.closeCall.Some? ==> Issued(s.calls.closeCall.value);
    DeferredCloseMoves(e, s);
  }

  lemma SettledDaemon(s: State, t: State, r: Request, response: Response)
    requires DaemonOk(s) && Settles(s, t, r, response)
    ensures DaemonOk(t) && t.wire.closed == s.wire.closed
    ensures if t.wire.stopping then t.wire.sent == s.wire.sent else Responded(ViewOf(s), ViewOf(t), r, response)
  {
  }

  lemma ReplyStep(e: Env, sys: System)
    requires LinkInv(sys) && sys.ur < |sys.w.out| && sys.w.out[sys.ur].Reply? && !sys.d.wire.stopping
    ensures LinkInv(Next(e, sys, DaemonReads))
  {
    hide Joint, StreamOk, Moved, RecordsOk, TurnOk, Bounded, Inv, SettleResponse, WriteDeferredClose, Responded, Settles, RunReply;
    var u := sys.w.out[sys.ur];
    var v := ViewOf(sys.d);
    ReplyExpected(v, sys.w, sys.dr, sys.ur);
    var r := sys.d.calls.pending[u.id];
    ReplySettles(e, sys.d, u.id, u.response);
    var m := Removed(sys.d, u.id);
    var t := SettleResponse(e, m, r, u.response);
    SettledDaemon(m, t, r, u.response);
    if !t.wire.stopping {
      ReplyViews(v, ViewOf(m), ViewOf(t), r, sys.w, sys.dr, sys.ur);
    }
    Rejoined(sys, t, sys.ur + 1);
    if r.verb == Execute && r.collect {
      CloseAfter(e, sys.(d := t, ur := sys.ur + 1));
    }
  }

  /** The close that waited behind a blocking run may follow its read. */
  lemma CloseAfter(e: Env, sys: System)
    requires LinkInv(sys)
    ensures LinkInv(sys.(d := WriteDeferredClose(e, sys.d)))
  {
    hide Joint, StreamOk, Moved, RecordsOk, TurnOk, Bounded, Inv;
    var s := sys.d;
    if !s.wire.stopping && !s.wire.closed {
      CloseDaemon(e, s);
      var t := WriteDeferredClose(e, s);
      if !t.wire.stopping {
        CloseViews(ViewOf(s), ViewOf(t), sys.w, sys.dr, sys.ur);
      }
      Rejoined(sys, t, sys.ur);
    }
  }

  lemma MovedSystem(sys: System, t: State)
    requires LinkInv(sys) && !sys.d.wire.stopping && Inv(t) && Kept(sys.d, t)
    ensures LinkInv(sys.(d := t))
  {
    hide Joint, StreamOk, Moved, RecordsOk, TurnOk, Bounded, Inv;
    if !t.wire.stopping {
      CloseViews(ViewOf(sys.d), ViewOf(t), sys.w, sys.dr, sys.ur);
    }
    Rejoined(sys, t, sys.ur);
  }

  /** Steps that leave the view alone, or only stop the session. */
  lemma IdleSystem(sys: System, t: State)
    requires LinkInv(sys) && DaemonOk(t) && t.wire.sent == sys.d.wire.sent
    requires !t.wire.stopping ==> ViewOf(t) == ViewOf(sys.d) && !sys.d.wire.stopping
    ensures LinkInv(sys.(d := t))
  {
    hide Joint, StreamOk, RecordsOk, TurnOk, Bounded, Inv, ViewOf;
    Rejoined(sys, t, sys.ur);
  }

  lemma AnsweredOnly(s: State, r: Request, a: Answer)
    requires DaemonOk(s)
    ensures DaemonOk(AnswerRouted(s, r, a)) && ViewOf(AnswerRouted(s, r, a)) == ViewOf(s)
    ensures AnswerRouted(s, r, a).wire == s.wire
  {
    AnswerCore(s, r, a);
  }

  lemma RoutedStep(e: Env, sys: System, r: Request)
    requires LinkInv(sys) && Fresh(r)
    ensures LinkInv(Next(e, sys, Daemon(Routed(r))))
  {
    hide Joint, StreamOk, RecordsOk, TurnOk, Moved, Issue, AnswerRouted;
    var s := sys.d;
    if s.wire.stopping || r.destination != s.entry.identity || s.entry.launching {
      AnsweredOnly(s, r, Refused(NOT_CONNECTED));
      IdleSystem(sys, AnswerRouted(s, r, Refused(NOT_CONNECTED)));
    } else {
      IssueInv(e, s, r);
      IssueKept(e, s, r);
      MovedSystem(sys, Issue(e, s, r));
    }
  }

  lemma RetireStep(e: Env, sys: System, ticket: nat)
    requires LinkInv(sys)
    ensures LinkInv(Next(e, sys, Daemon(Retire(ticket))))
  {
    hide Joint, StreamOk, RecordsOk, TurnOk, Moved, BeginClose;
    var s := sys.d;
    if !(s.wire.stopping || s.calls.closeCall.Some? || s.entry.launching) {
      var r := Request(ticket, s.entry.identity, Close, None, None, false, false, false, false);
      BeginCloseCore(e, s, r);
      BeginCloseKept(e, s, r);
      MovedSystem(sys, BeginClose(e, s, r));
    }
  }

  lemma OtherStep(e: Env, sys: System, event: Event)
    requires LinkInv(sys) && (event.Disconnected? || event.CloseExpired? || event.Tick?)
    ensures LinkInv(Next(e, sys, Daemon(event)))
  {
    hide Joint, StreamOk, RecordsOk, TurnOk, CallsOk, SentOk, ConnectionClosed;
    DisconnectedInv(sys.d);
    var t := Handle(e, sys.d, event);
    IdleSystem(sys, t);
  }

  // ---- the worker reads ----

  lemma PublishOk(c: Cursor, t: Turn)
    requires RecordsOk(c) && TurnOk(c, Some(t))
    ensures RecordsOk(Publish(c, t.run)) && TurnOk(Publish(c, t.run), None)
  {
  }

  lemma AckStream(sent: seq<Down>, dr: nat, w: Worker)
    requires StreamOk(sent, dr, w) && dr < |sent| && sent[dr].ReadyAck?
    ensures w.turn.Some? && StreamOk(sent, dr + 1, w.(cursor := Publish(w.cursor, w.turn.value.run), turn := None))
  {
    assert Acks(sent[dr], w.turn);
  }

  lemma AckJoint(v: View, w: Worker, dr: nat, ur: nat)
    requires Joint(v, w, dr, ur) && dr < |v.sent| && v.sent[dr].ReadyAck? && w.turn.Some?
    ensures Joint(v, w.(cursor := Publish(w.cursor, w.turn.value.run), turn := None), dr + 1, ur)
  {
    var x := w.(cursor := Publish(w.cursor, w.turn.value.run), turn := None);
    assert NoReady(w.out, ur);
    assert forall r, response :: ReplyOk(w.cursor, r, response) ==> ReplyOk(x.cursor, r, response);
    assert PairOk(v, x, dr + 1, ur) && ReadyOk(v, x, ur);
    assert MatchOk(v, x, dr + 1, ur);
  }

  /** A run frame reaches a free slot with room in the table: it is accepted. */
  lemma RunAccepted(sent: seq<Down>, dr: nat, w: Worker, nextOut: nat, closing: bool)
    requires SentOk(sent, nextOut, closing) && StreamOk(sent, dr, w) && WorkerOk(w) && dr < |sent| && RunFrame(sent[dr])
    ensures ExecuteCode(w.cursor, RunOf(sent[dr].request)) == 0 && w.turn.None?
  {
    assert !AckUnread(sent, dr, dr, w.turn);
    assert w.cursor.slot != Closing;
  }

  lemma AcceptOk(c: Cursor, id: RunId, t: Turn)
    requires RecordsOk(c) && TurnOk(c, None) && ExecuteCode(c, Exact(id)) == 0 && t.run == id && t.announced.None?
    ensures RecordsOk(Accept(c, Exact(id))) && TurnOk(Accept(c, Exact(id)), Some(t))
  {
  }

  function Begun(w: Worker, id: nat, r: Request): Worker {
    w.(lastIn := id, cursor := Accept(w.cursor, RunOf(r)),
       turn := Some(Turn(if r.run.Some? then r.run.value else RunId("", 0), id, r.verb == Deliver, false, false, None)))
  }

  lemma BegunStream(sent: seq<Down>, dr: nat, w: Worker, nextOut: nat, closing: bool)
    requires SentOk(sent, nextOut, closing) && StreamOk(sent, dr, w) && dr < |sent| && RunFrame(sent[dr])
    requires w.turn.None? && ExecuteCode(w.cursor, RunOf(sent[dr].request)) == 0
    ensures StreamOk(sent, dr + 1, Begun(w, sent[dr].id, sent[dr].request))
  {
  }

  lemma BegunJoint(v: View, w: Worker, dr: nat, ur: nat)
    requires Joint(v, w, dr, ur) && StreamOk(v.sent, dr, w) && dr < |v.sent| && RunFrame(v.sent[dr])
    requires w.turn.None? && ExecuteCode(w.cursor, RunOf(v.sent[dr].request)) == 0
    ensures Joint(v, Begun(w, v.sent[dr].id, v.sent[dr].request), dr + 1, ur)
  {
    var x := Begun(w, v.sent[dr].id, v.sent[dr].request);
    assert forall r, response :: ReplyOk(w.cursor, r, response) ==> ReplyOk(x.cursor, r, response);
    assert PairOk(v, x, dr + 1, ur) && ReadyOk(v, x, ur);
    assert MatchOk(v, x, dr + 1, ur);
  }

  /** The cursor changes a call without a run can make. */
  predicate Eased(c: Cursor, x: Cursor) {
    && x.last == c.last && x.generation == c.generation && x.acknowledged >= c.acknowledged && |x.records| <= |c.records|
    && (x.slot == c.slot || x.slot == Closing)
  }

  lemma AcknowledgeOk(c: Cursor, turn: Option<Turn>, ref: RunText)
    requires RecordsOk(c) && TurnOk(c, turn)
    ensures RecordsOk(Acknowledge(c, ref)) && TurnOk(Acknowledge(c, ref), turn) && Eased(c, Acknowledge(c, ref))
    ensures AckCode(c, ref) == 0 ==> Released(Acknowledge(c, ref), Some(ref))
  {
    var x := Acknowledge(c, ref);
    if x != c {
      assert forall i :: 0 <= i < |x.records| ==> x.records[i] == c.records[i + 1];
    }
  }

  /** The worker after reading a call that starts no run. */
  predicate Read(w: Worker, x: Worker, id: nat) {
    && x.lastIn == id && x.turn == w.turn && x.out == w.out && Eased(w.cursor, x.cursor)
    && (x.jobs == w.jobs || (id in x.jobs && x.jobs == w.jobs[id := x.jobs[id]]))
  }

  lemma ReadCall(w: Worker, id: nat, r: Request)
    requires WorkerOk(w) && r.run.None? && Issued(r)
    ensures var x := ReceiveCall(w.(lastIn := id), id, r);
      && WorkerOk(x) && Read(w, x, id) && (id in x.jobs && x.jobs != w.jobs ==> JobOk(x.cursor, r, x.jobs[id]))
      && (x.cursor.slot == Closing ==> w.cursor.slot == Closing || r.verb == Close)
  {
    if r.verb == Ack {
      AcknowledgeOk(w.cursor, w.turn, r.ref.value);
    }
  }

  lemma ReadStream(sent: seq<Down>, dr: nat, w: Worker, x: Worker, nextOut: nat, closing: bool)
    requires SentOk(sent, nextOut, closing) && StreamOk(sent, dr, w) && dr < |sent| && sent[dr].Call? && sent[dr].request.run.None?
    requires Read(w, x, sent[dr].id)
    requires x.cursor.slot == Closing ==> w.cursor.slot == Closing || sent[dr].request.verb == Close
    ensures StreamOk(sent, dr + 1, x)
  {
    forall i | dr + 1 <= i < |sent| && RunFrame(sent[i])
      ensures Takes(x.cursor, sent[i].request.run.value) && (x.turn.None? || AckUnread(sent, dr + 1, i, x.turn))
    {
      if x.turn.Some? {
        var k :| dr <= k < i && Acks(sent[k], w.turn);
        assert k != dr;
      }
    }
  }

  lemma ReadPair(v: View, w: Worker, x: Worker, dr: nat, ur: nat)
    requires PairOk(v, w, dr, ur) && ReadyOk(v, w, ur) && dr < |v.sent| && v.sent[dr].Call? && v.sent[dr].request.run.None?
    requires Read(w, x, v.sent[dr].id)
    ensures PairOk(v, x, dr + 1, ur) && ReadyOk(v, x, ur)
  {
    if w.turn.Some? && v.current.None? && !v.cut {
      var k :| dr <= k < |v.sent| && Acks(v.sent[k], w.turn);
      assert k != dr;
      assert AckUnread(v.sent, dr + 1, |v.sent|, x.turn);
    }
  }

  lemma ReadMatch(v: View, w: Worker, x: Worker, dr: nat, ur: nat)
    requires MatchOk(v, w, dr, ur) && StreamOk(v.sent, dr, w) && dr < |v.sent| && v.sent[dr].Call? && v.sent[dr].request.run.None?
    requires Read(w, x, v.sent[dr].id)
    requires v.sent[dr].id in x.jobs && x.jobs != w.jobs ==> JobOk(x.cursor, v.sent[dr].request, x.jobs[v.sent[dr].id])
    ensures MatchOk(v, x, dr + 1, ur)
  {
    var id := v.sent[dr].id;
    assert id !in w.jobs && !Replied(w.out, id);
    assert forall r, response :: ReplyOk(w.cursor, r, response) ==> ReplyOk(x.cursor, r, response);
    forall k | k in x.jobs
      ensures k <= x.lastIn && k in v.pending && JobOk(x.cursor, v.pending[k], x.jobs[k]) && !Replied(x.out, k)
    {
      if k != id {
        assert x.jobs[k] == w.jobs[k];
      }
    }
  }

  lemma Reworked(sys: System, x: Worker, dr: nat)
    requires DaemonOk(sys.d) && WorkerOk(x) && sys.ur <= |x.out| && StreamOk(sys.d.wire.sent, dr, x)
    requires !sys.d.wire.stopping ==> Joint(ViewOf(sys.d), x, dr, sys.ur)
    ensures LinkInv(sys.(w := x, dr := dr))
  {
    hide DaemonOk, WorkerOk, StreamOk, Joint;
  }

  lemma ReadsAck(sys: System)
    requires LinkInv(sys) && sys.dr < |sys.d.wire.sent| && !sys.w.dead && sys.d.wire.sent[sys.dr].ReadyAck?
    ensures LinkInv(sys.(w := Receive(sys.w, sys.d.wire.sent[sys.dr]), dr := sys.dr + 1))
  {
    hide Joint, StreamOk, RecordsOk, TurnOk, DaemonOk, Publish;
    var sent := sys.d.wire.sent;
    AckStream(sent, sys.dr, sys.w);
    AckIsExpected(sent, sys.dr, sys.w);
    PublishOk(sys.w.cursor, sys.w.turn.value);
    if !sys.d.wire.stopping {
      AckJoint(ViewOf(sys.d), sys.w, sys.dr, sys.ur);
    }
    Reworked(sys, Receive(sys.w, sent[sys.dr]), sys.dr + 1);
  }

  /** The worker never sees an acknowledgement it is not waiting for. */
  lemma AckIsExpected(sent: seq<Down>, dr: nat, w: Worker)
    requires StreamOk(sent, dr, w) && dr < |sent| && sent[dr].ReadyAck?
    ensures w.turn.Some? && w.turn.value.announced == Some(sent[dr].id)
  {
    assert Acks(sent[dr], w.turn);
  }

  lemma CallIsFresh(sent: seq<Down>, dr: nat, w: Worker)
    requires StreamOk(sent, dr, w) && dr < |sent| && sent[dr].Call?
    ensures sent[dr].id > w.lastIn
  {
  }

  lemma ReadsRun(sys: System)
    requires LinkInv(sys) && sys.dr < |sys.d.wire.sent| && !sys.w.dead && RunFrame(sys.d.wire.sent[sys.dr])
    ensures LinkInv(sys.(w := Receive(sys.w, sys.d.wire.sent[sys.dr]), dr := sys.dr + 1))
  {
    hide Joint, StreamOk, RecordsOk, TurnOk, RunsOk, CallsOk, SentOk, FlagsOk, Accept, ExecuteCode;
    var sent, n, closing := sys.d.wire.sent, sys.d.calls.nextOut, sys.d.calls.closeCall.Some?;
    var f := sent[sys.dr];
    RunAccepted(sent, sys.dr, sys.w, n, closing);
    CallIsFresh(sent, sys.dr, sys.w);
    RunVerb(sent, sys.dr, n, closing);
    var x := Begun(sys.w, f.id, f.request);
    AcceptOk(sys.w.cursor, f.request.run.value, x.turn.value);
    BegunStream(sent, sys.dr, sys.w, n, closing);
    if !sys.d.wire.stopping {
      BegunJoint(ViewOf(sys.d), sys.w, sys.dr, sys.ur);
    }
    assert Receive(sys.w, f) == x;
    Reworked(sys, x, sys.dr + 1);
  }

  lemma RunVerb(sent: seq<Down>, i: nat, nextOut: nat, closing: bool)
    requires SentOk(sent, nextOut, closing) && i < |sent| && sent[i].Call?
    ensures Issued(sent[i].request)
  {
  }

  lemma ReadsCall(sys: System)
    requires LinkInv(sys) && sys.dr < |sys.d.wire.sent| && !sys.w.dead
    requires sys.d.wire.sent[sys.dr].Call? && sys.d.wire.sent[sys.dr].request.run.None?
    ensures LinkInv(sys.(w := Receive(sys.w, sys.d.wire.sent[sys.dr]), dr := sys.dr + 1))
  {
    hide Joint, StreamOk, RecordsOk, TurnOk, RunsOk, CallsOk, SentOk, FlagsOk, ReceiveCall, Read, JobOk;
    var sent, n, closing := sys.d.wire.sent, sys.d.calls.nextOut, sys.d.calls.closeCall.Some?;
    var f := sent[sys.dr];
    CallIsFresh(sent, sys.dr, sys.w);
    RunVerb(sent, sys.dr, n, closing);
    ReadCall(sys.w, f.id, f.request);
    var x := ReceiveCall(sys.w.(lastIn := f.id), f.id, f.request);
    ReadStream(sent, sys.dr, sys.w, x, n, closing);
    if !sys.d.wire.stopping {
      ReadJoint(ViewOf(sys.d), sys.w, x, sys.dr, sys.ur);
    }
    OutKept(sys.w, x, f.id);
    Reworked(sys, x, sys.dr + 1);
  }

  lemma OutKept(w: Worker, x: Worker, id: nat)
    requires Read(w, x, id)
    ensures x.out == w.out
  {
  }

  lemma ReadJoint(v: View, w: Worker, x: Worker, dr: nat, ur: nat)
    requires Joint(v, w, dr, ur) && StreamOk(v.sent, dr, w) && dr < |v.sent| && v.sent[dr].Call? && v.sent[dr].request.run.None?
    requires Read(w, x, v.sent[dr].id)
    requires v.sent[dr].id in x.jobs && x.jobs != w.jobs ==> JobOk(x.cursor, v.sent[dr].request, x.jobs[v.sent[dr].id])
    ensures Joint(v, x, dr + 1, ur)
  {
    hide PairOk, MatchOk, ReadyOk, StreamOk, Read, JobOk;
    ReadPair(v, w, x, dr, ur);
    ReadMatch(v, w, x, dr, ur);
  }

  // ---- the worker writes ----

  lemma SettleMatch(v: View, w: Worker, id: nat, response: Response, dr: nat, ur: nat)
    requires MatchOk(v, w, dr, ur) && Enabled(w, Settle(id, response))
    ensures MatchOk(v, Advance(w, Settle(id, response)), dr, ur)
  {
    var x := Advance(w, Settle(id, response));
    assert forall k :: 0 <= k < |w.out| ==> x.out[k] == w.out[k];
    assert x.out[|w.out|] == Reply(id, response);
    assert ReplyOk(w.cursor, v.pending[id], response);
    assert forall k: nat :: k != id && !Replied(w.out, k) ==> !Replied(x.out, k);
  }

  lemma SettleJoint(v: View, w: Worker, id: nat, response: Response, dr: nat, ur: nat)
    requires Joint(v, w, dr, ur) && Enabled(w, Settle(id, response))
    ensures Joint(v, Advance(w, Settle(id, response)), dr, ur)
  {
    hide MatchOk;
    SettleMatch(v, w, id, response, dr, ur);
    assert ReadyOk(v, Advance(w, Settle(id, response)), ur);
  }

  lemma AnswerPair(v: View, w: Worker, response: Response, dr: nat, ur: nat)
    requires PairOk(v, w, dr, ur) && ReadyOk(v, w, ur) && Enabled(w, AnswerTurn(response))
    ensures PairOk(v, Advance(w, AnswerTurn(response)), dr, ur) && ReadyOk(v, Advance(w, AnswerTurn(response)), ur)
  {
    var x := Advance(w, AnswerTurn(response));
    assert forall k :: 0 <= k < |w.out| ==> x.out[k] == w.out[k];
    assert x.out[|w.out|] == Reply(w.turn.value.call, response);
    assert forall lo, hi | 0 <= lo <= hi <= |v.sent| :: AckUnread(v.sent, lo, hi, w.turn) ==> AckUnread(v.sent, lo, hi, x.turn);
  }

  lemma AnswerMatch(v: View, w: Worker, response: Response, dr: nat, ur: nat)
    requires MatchOk(v, w, dr, ur) && Enabled(w, AnswerTurn(response)) && response != Failed(NOT_RUNNING)
    requires w.turn.value.call in v.pending ==> Issued(v.pending[w.turn.value.call])
    ensures MatchOk(v, Advance(w, AnswerTurn(response)), dr, ur)
  {
    var x := Advance(w, AnswerTurn(response));
    var id := w.turn.value.call;
    assert forall k :: 0 <= k < |w.out| ==> x.out[k] == w.out[k];
    assert x.out[|w.out|] == Reply(id, response);
    assert ReplyOk(w.cursor, v.pending[id], response);
    assert forall k: nat :: k != id && !Replied(w.out, k) ==> !Replied(x.out, k);
  }

  lemma AnswerJoint(v: View, w: Worker, response: Response, dr: nat, ur: nat)
    requires Joint(v, w, dr, ur) && Enabled(w, AnswerTurn(response)) && response != Failed(NOT_RUNNING)
    requires w.turn.value.call in v.pending ==> Issued(v.pending[w.turn.value.call])
    ensures Joint(v, Advance(w, AnswerTurn(response)), dr, ur)
  {
    hide PairOk, ReadyOk, MatchOk, Advance;
    AnswerPair(v, w, response, dr, ur);
    AnswerMatch(v, w, response, dr, ur);
  }

  lemma ReturnJoint(v: View, w: Worker, dr: nat, ur: nat)
    requires Joint(v, w, dr, ur) && Enabled(w, Return)
    ensures Joint(v, Advance(w, Return), dr, ur)
  {
    var x := Advance(w, Return);
    assert forall lo, hi | 0 <= lo <= hi <= |v.sent| :: AckUnread(v.sent, lo, hi, w.turn) ==> AckUnread(v.sent, lo, hi, x.turn);
    assert PairOk(v, x, dr, ur) && ReadyOk(v, x, ur) && MatchOk(v, x, dr, ur);
  }

  lemma AnnounceJoint(v: View, w: Worker, done: bool, dr: nat, ur: nat)
    requires Joint(v, w, dr, ur) && Enabled(w, Announce(done)) && ur <= |w.out|
    ensures Joint(v, Advance(w, Announce(done)), dr, ur)
  {
    var x := Advance(w, Announce(done));
    assert forall k :: 0 <= k < |w.out| ==> x.out[k] == w.out[k];
    assert NoReady(w.out, ur);
    assert forall k: nat :: !Replied(w.out, k) ==> !Replied(x.out, k);
    assert PairOk(v, x, dr, ur) && ReadyOk(v, x, ur);
    assert MatchOk(v, x, dr, ur);
  }

  lemma AdvanceStream(sent: seq<Down>, dr: nat, w: Worker, step: WorkerStep)
    requires StreamOk(sent, dr, w) && Enabled(w, step)
    ensures StreamOk(sent, dr, Advance(w, step))
  {
    var x := Advance(w, step);
    forall i | dr <= i < |sent| && RunFrame(sent[i])
      ensures Takes(x.cursor, sent[i].request.run.value) && (x.turn.None? || AckUnread(sent, dr, i, x.turn))
    {
      if w.turn.Some? {
        var k :| dr <= k < i && Acks(sent[k], w.turn);
        assert Acks(sent[k], x.turn);
      }
    }
  }

  lemma AdvanceOk(w: Worker, step: WorkerStep)
    requires WorkerOk(w) && Enabled(w, step)
    ensures WorkerOk(Advance(w, step)) && |Advance(w, step).out| >= |w.out|
  {
  }

  lemma AdvanceJoint(v: View, w: Worker, step: WorkerStep, dr: nat, ur: nat)
    requires Joint(v, w, dr, ur) && Enabled(w, step) && ur <= |w.out| && step != AnswerTurn(Failed(NOT_RUNNING))
    requires forall id :: id in v.pending ==> Issued(v.pending[id])
    ensures Joint(v, Advance(w, step), dr, ur)
  {
    hide Joint, Advance;
    match step
    case Settle(id, response) => SettleJoint(v, w, id, response, dr, ur);
    case AnswerTurn(response) => AnswerJoint(v, w, response, dr, ur);
    case Return => ReturnJoint(v, w, dr, ur);
    case Announce(done) => AnnounceJoint(v, w, done, dr, ur);
  }

  lemma ActsStep(e: Env, sys: System, step: WorkerStep)
    requires LinkInv(sys) && Enabled(sys.w, step) && step != AnswerTurn(Failed(NOT_RUNNING))
    ensures LinkInv(sys.(w := Advance(sys.w, step)))
  {
    hide Joint, StreamOk, WorkerOk, RunsOk, SentOk, FlagsOk, Advance, Enabled, Bounded;
    AdvanceOk(sys.w, step);
    AdvanceStream(sys.d.wire.sent, sys.dr, sys.w, step);
    if !sys.d.wire.stopping {
      AdvanceJoint(ViewOf(sys.d), sys.w, step, sys.dr, sys.ur);
    }
    Reworked(sys, Advance(sys.w, step), sys.dr);
  }

  // ---- every step, every run ----

  /** The joint invariant survives every step of either end. */
  lemma LinkStep(e: Env, sys: System, step: Step)
    requires LinkInv(sys) && Honest(step)
    ensures LinkInv(Next(e, sys, step))
  {
    hide LinkInv, Handle, Receive, Advance, Enabled;
    match step
    case Daemon(event) =>
      if External(event) {
        match event
        case Routed(r) => RoutedStep(e, sys, r);
        case Retire(ticket) => RetireStep(e, sys, ticket);
        case _ => OtherStep(e, sys, event);
      }
    case DaemonReads => DaemonReadsStep(e, sys);
    case WorkerReads => WorkerReadsStep(e, sys);
    case WorkerActs(s) =>
      if Enabled(sys.w, s) {
        ActsStep(e, sys, s);
      }
  }

  lemma DaemonReadsStep(e: Env, sys: System)
    requires LinkInv(sys)
    ensures LinkInv(Next(e, sys, DaemonReads))
  {
    hide DaemonOk, WorkerOk, StreamOk, Joint;
    if sys.ur < |sys.w.out| {
      if sys.d.wire.stopping {
        Rejoined(sys, sys.d, sys.ur + 1);
      } else if sys.w.out[sys.ur].Reply? {
        ReplyStep(e, sys);
      } else {
        ReadyStep(e, sys);
      }
    }
  }

  lemma WorkerReadsStep(e: Env, sys: System)
    requires LinkInv(sys)
    ensures LinkInv(Next(e, sys, WorkerReads))
  {
    hide LinkInv, Receive;
    if sys.dr < |sys.d.wire.sent| && !sys.w.dead {
      var f := sys.d.wire.sent[sys.dr];
      if f.ReadyAck? {
        ReadsAck(sys);
      } else if f.request.run.Some? {
        ReadsRun(sys);
      } else {
        ReadsCall(sys);
      }
    }
  }

  function Run(e: Env, sys: System, steps: seq<Step>): System
    decreases |steps|
  {
    if steps == [] then sys else Next(e, Run(e, sys, steps[..|steps| - 1]), steps[|steps| - 1])
  }

  predicate AllHonest(steps: seq<Step>) { forall i :: 0 <= i < |steps| ==> Honest(steps[i]) }

  lemma StartInv(identity: nat)
    ensures LinkInv(Opened(identity))
  {
    assert Joint(ViewOf(Opened(identity).d), NewWorker(), 0, 0);
  }

  /** The joint invariant holds in every state any interleaving can reach. */
  lemma {:induction false} LaneSafety(e: Env, identity: nat, steps: seq<Step>)
    requires AllHonest(steps)
    ensures LinkInv(Run(e, Opened(identity), steps))
    decreases |steps|
  {
    hide LinkInv, Opened, Next;
    if steps == [] {
      StartInv(identity);
    } else {
      var n := |steps| - 1;
      assert AllHonest(steps[..n]);
      LaneSafety(e, identity, steps[..n]);
      LinkStep(e, Run(e, Opened(identity), steps[..n]), steps[n]);
    }
  }

  /** Every run frame is accepted: next in sequence, the slot free, a record to spare. */
  lemma EveryRunIsAccepted(e: Env, identity: nat, steps: seq<Step>)
    requires AllHonest(steps)
    ensures var sys := Run(e, Opened(identity), steps);
      sys.dr < |sys.d.wire.sent| && RunFrame(sys.d.wire.sent[sys.dr]) ==>
        ExecuteCode(sys.w.cursor, RunOf(sys.d.wire.sent[sys.dr].request)) == 0
  {
    LaneSafety(e, identity, steps);
    var sys := Run(e, Opened(identity), steps);
    hide Run, Joint, StreamOk, WorkerOk, SentOk, CallsOk, RunsOk;
    if sys.dr < |sys.d.wire.sent| && RunFrame(sys.d.wire.sent[sys.dr]) {
      RunAccepted(sys.d.wire.sent, sys.dr, sys.w, sys.d.calls.nextOut, sys.d.calls.closeCall.Some?);
    }
  }

  /** The two cursors and the promises never drift apart, and never overrun the table. */
  lemma CursorsAgree(e: Env, identity: nat, steps: seq<Step>)
    requires AllHonest(steps)
    ensures var sys := Run(e, Opened(identity), steps);
      && sys.d.runs.acknowledged <= sys.d.runs.sequence
      && sys.d.runs.sequence - sys.d.runs.acknowledged + |sys.d.calls.deferred| <= MAX_OPERATIONS
      && (!sys.d.wire.stopping ==>
            sys.d.runs.acknowledged <= sys.w.cursor.acknowledged <= sys.w.cursor.last
              <= sys.d.runs.sequence <= sys.w.cursor.last + 1)
  {
    LaneSafety(e, identity, steps);
    hide Run, MatchOk, ReadyOk, StreamOk, TurnOk, SentOk, CallsOk, RunsOk;
  }
}
