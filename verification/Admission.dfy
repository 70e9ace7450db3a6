/**
  Which requests a lane takes, and what it writes for them: in every state a lane
  can reach, read off the run under way, the results not yet acknowledged, the
  calls outstanding and the close in progress.
 */
module Admission {
  import opened Common
  import opened RunIds
  import opened SessionModel
  import opened SessionProofs
  import opened LaneLink

  /** The worker will have a record for one more result, promised ones included. */
  predicate Spare(s: State) { s.runs.sequence - s.runs.acknowledged + |s.calls.deferred| < MAX_OPERATIONS }

  predicate Uncrowded(s: State) { s.calls.closeCall.None? && |s.calls.pending| + |s.calls.deferred| < MAX_PENDING_CALLS }

  /** A lane without a close in progress takes a request unless too many calls are outstanding; runs, and what needs one, as follows. */
  predicate Takes(s: State, r: Request) {
    Uncrowded(s) &&
    match r.verb
    case Start => s.runs.current.None? && Spare(s)
    case RunAndWait => s.runs.current.None? && Spare(s)
    case Deliver => s.runs.current.Some? || Spare(s)
    case Interrupt => s.runs.current.Some?
    case _ => true
  }

  /** The code of a request that is not taken. */
  function Why(s: State, r: Request): int { if Uncrowded(s) && r.verb == Interrupt then NOT_RUNNING else BUSY }

  /** A request that starts a run: asked for, or a delivery to an idle lane. */
  predicate Starts(s: State, r: Request) { r.verb == Start || r.verb == RunAndWait || (r.verb == Deliver && s.runs.current.None?) }

  /** q is how r goes to the worker: as asked, with the run it starts. */
  predicate WrittenAs(e: Env, s: State, r: Request, q: Request) {
    && q.ticket == r.ticket && q.destination == r.destination && q.ref == r.ref
    && q.completion == r.completion && q.traceCopy == r.traceCopy && !q.scheduled
    && q.verb == (if r.verb == Start || r.verb == RunAndWait then Execute else r.verb) && q.collect == (r.verb == RunAndWait)
    && q.run == if !Starts(s, r) then None
                else Some(RunId(if s.runs.generation.Some? then s.runs.generation.value else e.generation, s.runs.sequence + 1))
  }

  /** Nothing but one answer. */
  predicate Turned(s: State, u: State, t: nat, code: int) {
    u == s.(books := u.books) && u.books == s.books.(replies := s.books.replies[t := At(s.books.replies, t) + [Refused(code)]])
  }

  /** The call is pending and written; its frame is the last on the wire unless the wire was cut before. */
  predicate Sends(s: State, u: State, id: nat, q: Request) {
    && id !in s.calls.pending && u.calls == s.calls.(nextOut := id, pending := s.calls.pending[id := q])
    && u.wire.sent == (if s.wire.cut then s.wire.sent else s.wire.sent + [Call(id, q)]) && u.wire.cut == s.wire.cut && u.books == s.books
    && u.runs.current == (if q.run.Some? then q.run else s.runs.current)
    && u.runs.sequence == s.runs.sequence + (if q.run.Some? then 1 else 0)
  }

  /** The call cannot be sent: its caller hears so, and no run was started. */
  predicate Undone(s: State, u: State, t: nat) {
    && u.calls == s.calls.(nextOut := s.calls.nextOut + 1) && u.wire.sent == s.wire.sent
    && u.runs.current == s.runs.current && u.runs.sequence == s.runs.sequence && u.entry == s.entry
    && u.books == s.books.(replies := s.books.replies[t := At(s.books.replies, t) + [Refused(NOT_CONNECTED)]])
  }

  /** The call is sent if its body fits a frame and the outbox has room. */
  predicate Tried(e: Env, s: State, r: Request, q: Request, u: State) {
    if e.room(s.wire.attempts) && (CarriesBody(q.verb) ==> e.fits(s.calls.nextOut + 1)) then Sends(s, u, s.calls.nextOut + 1, q)
    else Undone(s, u, r.ticket)
  }

  lemma RefusalMeans(s: State, r: Request)
    requires DaemonOk(s) && Fresh(r) && !s.wire.stopping
    ensures Refusal(s, r) == if Takes(s, r) then 0 else Why(s, r)
  {
    CapacityMeaning(s);
    hide WireOk, HasRunCapacity;
  }

  lemma WriteMeans(e: Env, s: State, r: Request, q: Request)
    requires DaemonOk(s) && Fresh(r) && !s.wire.stopping && WrittenAs(e, s, r, q) && !Starts(s, r)
    ensures Tried(e, s, r, q, Write(e, s, q))
  {
    hide WireOk;
    assert s.calls.nextOut + 1 !in s.calls.pending;
  }

  lemma LaunchMeans(e: Env, s: State, r: Request, q: Request)
    requires DaemonOk(s) && Fresh(r) && !s.wire.stopping && Starts(s, r) && s.runs.current.None? && WrittenAs(e, s, r, q.(run := Some(NextRun(e, s.runs))))
    ensures Tried(e, s, r, q.(run := Some(NextRun(e, s.runs))), Launch(e, s, q))
  {
    hide WireOk;
    assert s.calls.nextOut + 1 !in s.calls.pending;
  }

  /**
    In every state a lane can reach, a request addressed to it is taken if and
    only if it may be. Taken, it goes to the worker as it was asked, with the next
    run if it starts one, or, if it cannot be sent, leaves everything as it was
    but for the answer; a close is begun. Not taken, it is answered at once and
    nothing else happens.
   */
  lemma RequestIsTakenIfItMay(e: Env, s: State, r: Request)
    requires DaemonOk(s) && Fresh(r) && !s.wire.stopping && !s.entry.launching && r.destination == s.entry.identity
    ensures var u := Handle(e, s, Routed(r));
      if !Takes(s, r) then Turned(s, u, r.ticket, Why(s, r))
      else if r.verb == Close then u.calls.closeCall == Some(r) && u.calls.deferred == []
      else exists q :: WrittenAs(e, s, r, q) && Tried(e, s, r, q, u)
  {
    RefusalMeans(s, r);
    var u := Handle(e, s, Routed(r));
    assert u == Issue(e, s, r);
    hide Refusal, Handle, DaemonOk;
    if Takes(s, r) && r.verb == Close {
      CloseMeans(e, s, r);
    } else if Takes(s, r) && Starts(s, r) {
      var q := Normalized(r);
      LaneIdle(s);
      LaunchMeans(e, s, r, q);
      hide Launch;
      assert WrittenAs(e, s, r, q.(run := Some(NextRun(e, s.runs))));
    } else if Takes(s, r) {
      var q := Normalized(r);
      WriteMeans(e, s, r, q);
      hide Write;
      assert WrittenAs(e, s, r, q);
    }
  }

  lemma LaneIdle(s: State)
    requires DaemonOk(s)
    ensures !s.entry.peer
  {
  }

  lemma CloseMeans(e: Env, s: State, r: Request)
    requires r.verb == Close && Refusal(s, r) == 0
    ensures Issue(e, s, r).calls.closeCall == Some(r) && Issue(e, s, r).calls.deferred == []
  {
    hide Refusal, GivenUp;
  }
}
