/**
  Where the call of a run is while it is pending: on its way to the worker, with
  the worker's turn, or answered and unread, ahead of the turn's own end.
 */
module RunCalls {
  import opened Common
  import opened RunIds
  import opened SessionModel
  import opened SessionProofs
  import opened WorkerModel
  import opened LaneLink

  ghost predicate InFlight(sent: seq<Down>, dr: nat, id: nat, r: Request) {
    exists j :: dr <= j < |sent| && sent[j] == Call(id, r)
  }

  /** The answer to call id is unread, and no end of a turn is in front of it. */
  ghost predicate AnswerUnread(out: seq<Up>, ur: nat, id: nat) {
    exists k :: ur <= k < |out| && out[k].Reply? && out[k].id == id && NoEnd(out, ur, k)
  }

  ghost predicate NoEnd(out: seq<Up>, lo: nat, hi: nat)
    requires hi <= |out|
  {
    forall l :: lo <= l < hi ==> out[l].Reply?
  }

  predicate Below(sent: seq<Down>, id: nat) { forall i :: 0 <= i < |sent| && sent[i].Call? ==> sent[i].id < id }

  /** The run of call id has been accepted, or its frame is ahead or lost with the wire. */
  ghost predicate Placed(v: View, w: Worker, dr: nat, ur: nat, id: nat)
    requires id in v.pending
  {
    if v.sequence == w.cursor.last then w.turn.Some? && w.turn.value.call == id && (w.turn.value.answered ==> AnswerUnread(w.out, ur, id))
    else id > w.lastIn && (InFlight(v.sent, dr, id, v.pending[id]) || (v.cut && Below(v.sent, id)))
  }

  /** At most one pending call carries a run, the current one. */
  ghost predicate RunCallsOk(v: View, w: Worker, dr: nat, ur: nat) {
    && (forall id :: id in v.pending && v.pending[id].run.Some? ==> v.pending[id].run == v.current && Placed(v, w, dr, ur, id))
    && (forall i, j :: i in v.pending && j in v.pending && v.pending[i].run.Some? && v.pending[j].run.Some? ==> i == j)
  }

  // ---- the daemon ----

  lemma MovedCalls(v: View, u: View, w: Worker, dr: nat, ur: nat)
    requires RunCallsOk(v, w, dr, ur) && Moved(v, u) && PairOk(v, w, dr, ur) && w.lastIn <= v.nextOut && dr <= |v.sent|
    requires forall i :: 0 <= i < |v.sent| && v.sent[i].Call? ==> v.sent[i].id <= v.nextOut
    requires forall id :: id in v.pending ==> id <= v.nextOut
    ensures RunCallsOk(u, w, dr, ur)
  {
    if Still(v, u) {
    } else {
      var r := Newest(u);
      assert forall i :: 0 <= i < |v.sent| ==> u.sent[i] == v.sent[i];
      if r.run.None? {
        forall id | id in u.pending && u.pending[id].run.Some?
          ensures u.pending[id].run == u.current && Placed(u, w, dr, ur, id)
        {
          if InFlight(v.sent, dr, id, v.pending[id]) {
            var j :| dr <= j < |v.sent| && v.sent[j] == Call(id, v.pending[id]);
            assert u.sent[j] == Call(id, v.pending[id]);
          }
        }
      } else {
        if !u.cut {
          assert u.sent[|v.sent|] == Call(u.nextOut, r);
        }
      }
    }
  }

  lemma RemovedCalls(v: View, w: Worker, dr: nat, ur: nat)
    requires RunCallsOk(v, w, dr, ur) && ur < |w.out| && w.out[ur].Reply?
    ensures RunCallsOk(v.(pending := v.pending - {w.out[ur].id}), w, dr, ur + 1)
  {
    var u := v.(pending := v.pending - {w.out[ur].id});
    forall id | id in u.pending && u.pending[id].run.Some?
      ensures u.pending[id].run == u.current && Placed(u, w, dr, ur + 1, id)
    {
      if AnswerUnread(w.out, ur, id) {
        var k :| ur <= k < |w.out| && w.out[k].Reply? && w.out[k].id == id && NoEnd(w.out, ur, k);
        assert NoEnd(w.out, ur + 1, k);
      }
    }
  }

  lemma RespondedCalls(v: View, u: View, r: Request, response: Response, w: Worker, dr: nat, ur: nat)
    requires RunCallsOk(v, w, dr, ur) && Responded(v, u, r, response) && PairOk(v, w, dr, ur) && w.lastIn <= v.nextOut && dr <= |v.sent|
    requires forall i :: 0 <= i < |v.sent| && v.sent[i].Call? ==> v.sent[i].id <= v.nextOut
    requires forall id :: id in v.pending ==> id <= v.nextOut
    ensures RunCallsOk(u, w, dr, ur)
  {
    if Moved(v, u) {
      MovedCalls(v, u, w, dr, ur);
    }
  }

  /** The answer to a run's call is read before the end of its turn. */
  lemma TurnOverCalls(v: View, u: View, w: Worker, dr: nat, ur: nat)
    requires RunCallsOk(v, w, dr, ur) && ReadyOk(v, w, ur) && TurnOk(w.cursor, w.turn)
    requires ur < |w.out| && w.out[ur].ReadyCall? && TurnOver(v, u, w.out[ur].id)
    ensures RunCallsOk(u, w, dr, ur + 1)
  {
    forall id | id in v.pending
      ensures v.pending[id].run.None?
    {
      assert v.pending[id].run.Some? ==> Placed(v, w, dr, ur, id);
    }
  }

  // ---- the worker reads ----

  lemma AckCalls(v: View, w: Worker, dr: nat, ur: nat)
    requires RunCallsOk(v, w, dr, ur) && PairOk(v, w, dr, ur) && dr < |v.sent| && v.sent[dr].ReadyAck? && w.turn.Some?
    ensures RunCallsOk(v, w.(cursor := Publish(w.cursor, w.turn.value.run), turn := None), dr + 1, ur)
  {
    var x := w.(cursor := Publish(w.cursor, w.turn.value.run), turn := None);
    forall id | id in v.pending && v.pending[id].run.Some?
      ensures Placed(v, x, dr + 1, ur, id)
    {
      if InFlight(v.sent, dr, id, v.pending[id]) {
        var j :| dr <= j < |v.sent| && v.sent[j] == Call(id, v.pending[id]);
        assert j != dr;
      }
    }
  }

  lemma BegunCalls(v: View, w: Worker, dr: nat, ur: nat)
    requires RunCallsOk(v, w, dr, ur) && PairOk(v, w, dr, ur) && StreamOk(v.sent, dr, w) && dr < |v.sent| && RunFrame(v.sent[dr])
    requires v.sent[dr].id in v.pending && v.pending[v.sent[dr].id] == v.sent[dr].request
    requires ExecuteCode(w.cursor, RunOf(v.sent[dr].request)) == 0
    ensures RunCallsOk(v, Begun(w, v.sent[dr].id, v.sent[dr].request), dr + 1, ur)
  {
  }

  lemma ReadCalls(v: View, w: Worker, x: Worker, dr: nat, ur: nat, nextOut: nat, closing: bool)
    requires RunCallsOk(v, w, dr, ur) && dr < |v.sent| && v.sent[dr].Call? && v.sent[dr].request.run.None? && Read(w, x, v.sent[dr].id)
    requires SentOk(v.sent, nextOut, closing)
    ensures RunCallsOk(v, x, dr + 1, ur)
  {
    forall id | id in v.pending && v.pending[id].run.Some?
      ensures Placed(v, x, dr + 1, ur, id)
    {
      assert Placed(v, w, dr, ur, id);
      if InFlight(v.sent, dr, id, v.pending[id]) {
        var j :| dr <= j < |v.sent| && v.sent[j] == Call(id, v.pending[id]);
        assert j != dr;
      }
    }
  }

  // ---- the worker writes ----

  lemma MoreUnread(out: seq<Up>, u: Up, ur: nat, id: nat)
    requires AnswerUnread(out, ur, id)
    ensures AnswerUnread(out + [u], ur, id)
  {
    var k :| ur <= k < |out| && out[k].Reply? && out[k].id == id && NoEnd(out, ur, k);
    assert (out + [u])[k] == out[k] && NoEnd(out + [u], ur, k);
  }

  lemma ActCalls(v: View, w: Worker, step: WorkerStep, dr: nat, ur: nat)
    requires RunCallsOk(v, w, dr, ur) && PairOk(v, w, dr, ur) && TurnOk(w.cursor, w.turn) && Enabled(w, step) && ur <= |w.out|
    ensures RunCallsOk(v, Advance(w, step), dr, ur)
  {
    var x := Advance(w, step);
    forall id | id in v.pending && v.pending[id].run.Some?
      ensures Placed(v, x, dr, ur, id)
    {
      assert Placed(v, w, dr, ur, id);
      if v.sequence == w.cursor.last && x.turn.value.answered {
        if w.turn.value.answered {
          if x.out != w.out { MoreUnread(w.out, x.out[|w.out|], ur, id); }
        } else {
          assert NoEnd(x.out, ur, |w.out|) && x.out[|w.out|].id == id;
        }
      }
    }
  }

  // ---- every step ----

  ghost predicate RunsPlaced(sys: System) { !sys.d.wire.stopping ==> RunCallsOk(ViewOf(sys.d), sys.w, sys.dr, sys.ur) }

  /** Facts of the joint invariant that the calls of runs rely on. */
  lemma LinkFacts(sys: System)
    requires LinkInv(sys) && !sys.d.wire.stopping
    ensures var v := ViewOf(sys.d);
      && Joint(v, sys.w, sys.dr, sys.ur) && PairOk(v, sys.w, sys.dr, sys.ur) && ReadyOk(v, sys.w, sys.ur) && MatchOk(v, sys.w, sys.dr, sys.ur)
      && sys.w.lastIn <= v.nextOut && sys.dr <= |v.sent| && sys.ur <= |sys.w.out| && TurnOk(sys.w.cursor, sys.w.turn) && RecordsOk(sys.w.cursor)
      && StreamOk(v.sent, sys.dr, sys.w) && DaemonOk(sys.d) && SentOk(v.sent, v.nextOut, sys.d.calls.closeCall.Some?)
  {
    hide RunsOk, CallsOk, RecordsOk, TurnOk;
  }

  lemma Numbering(s: State)
    requires Inv(s)
    ensures forall i :: 0 <= i < |s.wire.sent| && s.wire.sent[i].Call? ==> s.wire.sent[i].id <= s.calls.nextOut
    ensures forall id :: id in s.calls.pending ==> id <= s.calls.nextOut
  {
    hide RunsOk, FlagsOk;
  }

  /** What an event from outside does to the view. */
  lemma ExternalMoves(e: Env, s: State, event: Event)
    requires DaemonOk(s) && External(event) && !Handle(e, s, event).wire.stopping
    ensures !s.wire.stopping && Moved(ViewOf(s), ViewOf(Handle(e, s, event)))
  {
    hide Moved, Issue, BeginClose, CallsOk, WireOk, RunsOk, GivenUp, Settled, AnswerRouted;
    assert Still(ViewOf(s), ViewOf(s));
    match event
    case Routed(r) =>
      AnsweredOnly(s, r, Refused(NOT_CONNECTED));
      if !(s.wire.stopping || r.destination != s.entry.identity || s.entry.launching) {
        IssueKept(e, s, r);
      } else {
        StillIsMoved(ViewOf(s), ViewOf(AnswerRouted(s, r, Refused(NOT_CONNECTED))));
      }
    case Retire(ticket) =>
      StillIsMoved(ViewOf(s), ViewOf(s));
      if !(s.wire.stopping || s.calls.closeCall.Some? || s.entry.launching) {
        BeginCloseKept(e, s, Request(ticket, s.entry.identity, Close, None, None, false, false, false, false));
      }
    case Disconnected =>
    case CloseExpired => StillIsMoved(ViewOf(s), ViewOf(Handle(e, s, event)));
    case Tick(now) => StillIsMoved(ViewOf(s), ViewOf(Handle(e, s, event)));
  }

  lemma StillIsMoved(v: View, u: View)
    requires Still(v, u)
    ensures Moved(v, u)
  {
  }

  lemma ExternalCalls(e: Env, sys: System, event: Event)
    requires LinkInv(sys) && RunsPlaced(sys) && External(event)
    ensures RunsPlaced(Next(e, sys, Daemon(event)))
  {
    hide RunCallsOk, Handle, Joint, PairOk, ReadyOk, MatchOk, StreamOk, WorkerOk, TurnOk, Inv, Bounded, Moved, SentOk;
    if !Handle(e, sys.d, event).wire.stopping {
      ExternalMoves(e, sys.d, event);
      LinkFacts(sys);
      Numbering(sys.d);
      MovedCalls(ViewOf(sys.d), ViewOf(Handle(e, sys.d, event)), sys.w, sys.dr, sys.ur);
    }
  }

  lemma ReplyCalls(e: Env, sys: System)
    requires LinkInv(sys) && RunsPlaced(sys) && sys.ur < |sys.w.out| && sys.w.out[sys.ur].Reply? && !sys.d.wire.stopping
    ensures RunsPlaced(Next(e, sys, DaemonReads))
  {
    hide RunCallsOk, Joint, PairOk, ReadyOk, StreamOk, WorkerOk, TurnOk, Inv, Bounded, Moved, SentOk, SettleResponse, WriteDeferredClose, Responded,
         Settles, RunReply, MatchOk;
    var u, v := sys.w.out[sys.ur], ViewOf(sys.d);
    LinkFacts(sys);
    ReplyExpected(v, sys.w, sys.dr, sys.ur);
    var r, m := sys.d.calls.pending[u.id], Removed(sys.d, u.id);
    ReplySettles(e, sys.d, u.id, u.response);
    var t := SettleResponse(e, m, r, u.response);
    SettledDaemon(m, t, r, u.response);
    if !t.wire.stopping {
      RemovedCalls(v, sys.w, sys.dr, sys.ur);
      RemovedPair(v, sys.w, sys.dr, sys.ur);
      Numbering(m);
      RespondedCalls(ViewOf(m), ViewOf(t), r, u.response, sys.w, sys.dr, sys.ur + 1);
      ReplyViews(v, ViewOf(m), ViewOf(t), r, sys.w, sys.dr, sys.ur);
      if r.verb == Execute && r.collect {
        CloseCalls(e, t, sys);
      }
    }
    StopsStay(e, t);
  }

  lemma RemovedPair(v: View, w: Worker, dr: nat, ur: nat)
    requires Joint(v, w, dr, ur) && StreamOk(v.sent, dr, w) && ur < |w.out| && w.out[ur].Reply?
    ensures PairOk(v.(pending := v.pending - {w.out[ur].id}), w, dr, ur + 1)
  {
    RemovedJoint(v, w, dr, ur);
  }

  lemma StopsStay(e: Env, s: State)
    ensures s.wire.stopping ==> WriteDeferredClose(e, s).wire.stopping
  {
  }

  lemma CloseCalls(e: Env, t: State, sys: System)
    requires DaemonOk(t) && !t.wire.stopping && RunCallsOk(ViewOf(t), sys.w, sys.dr, sys.ur + 1)
    requires Joint(ViewOf(t), sys.w, sys.dr, sys.ur + 1) && StreamOk(t.wire.sent, sys.dr, sys.w)
    ensures var u := WriteDeferredClose(e, t); !u.wire.stopping ==> RunCallsOk(ViewOf(u), sys.w, sys.dr, sys.ur + 1)
  {
    hide RunCallsOk, RunsOk, CallsOk, WireOk, Bounded, Moved, SentOk, WriteDeferredClose, PairOk, ReadyOk, StreamOk;
    var u := WriteDeferredClose(e, t);
    CloseDaemon(e, t);
    Numbering(t);
    StreamEnds(t.wire.sent, sys.dr, sys.w);
    if !u.wire.stopping {
      MovedCalls(ViewOf(t), ViewOf(u), sys.w, sys.dr, sys.ur + 1);
    }
  }

  lemma StreamEnds(sent: seq<Down>, dr: nat, w: Worker)
    requires StreamOk(sent, dr, w)
    ensures dr <= |sent|
  {
  }

  lemma ReadyCalls(e: Env, sys: System)
    requires LinkInv(sys) && RunsPlaced(sys) && sys.ur < |sys.w.out| && sys.w.out[sys.ur].ReadyCall? && !sys.d.wire.stopping
    ensures RunsPlaced(Next(e, sys, DaemonReads))
  {
    hide RunCallsOk, Joint, PairOk, ReadyOk, StreamOk, WorkerOk, TurnOk, Inv, Bounded, Moved, SentOk, TurnReady, TurnAcked, TurnOver, MatchOk;
    var u, v := sys.w.out[sys.ur], ViewOf(sys.d);
    LinkFacts(sys);
    ReadyExpected(v, sys.w, sys.dr, sys.ur);
    ReadyDaemon(e, sys.d, u.id, u.run, u.done);
    var a, t := TurnAcked(e, sys.d, u.id, u.done), TurnReady(e, sys.d, u.id, u.run, u.done);
    TurnOverCalls(v, ViewOf(a), sys.w, sys.dr, sys.ur);
    Numbering(sys.d);
    TurnOverFacts(v, ViewOf(a), sys.w, sys.dr, sys.ur);
    MovedCalls(ViewOf(a), ViewOf(t), sys.w, sys.dr, sys.ur + 1);
  }

  lemma TurnOverFacts(v: View, u: View, w: Worker, dr: nat, ur: nat)
    requires Joint(v, w, dr, ur) && StreamOk(v.sent, dr, w) && ur < |w.out| && w.out[ur].ReadyCall? && TurnOver(v, u, w.out[ur].id)
    requires forall i :: 0 <= i < |v.sent| && v.sent[i].Call? ==> v.sent[i].id <= v.nextOut
    ensures PairOk(u, w, dr, ur + 1) && w.lastIn <= u.nextOut && dr <= |u.sent| && u.pending == v.pending && u.nextOut == v.nextOut
    ensures forall i :: 0 <= i < |u.sent| && u.sent[i].Call? ==> u.sent[i].id <= u.nextOut
  {
    TurnOverJoint(v, u, w, dr, ur);
  }

  lemma ReadsCalls(e: Env, sys: System)
    requires LinkInv(sys) && RunsPlaced(sys) && sys.dr < |sys.d.wire.sent| && !sys.w.dead && !sys.d.wire.stopping
    ensures RunsPlaced(Next(e, sys, WorkerReads))
  {
    hide RunCallsOk, Joint, PairOk, ReadyOk, StreamOk, DaemonOk, RecordsOk, TurnOk, SentOk, Accept, ExecuteCode, ReceiveCall, Read, Publish, MatchOk, JobOk;
    var v, sent := ViewOf(sys.d), sys.d.wire.sent;
    var f := sent[sys.dr];
    LinkFacts(sys);
    if f.ReadyAck? {
      AckIsExpected(sent, sys.dr, sys.w);
      AckCalls(v, sys.w, sys.dr, sys.ur);
    } else {
      CallIsFresh(sent, sys.dr, sys.w);
      RunVerb(sent, sys.dr, v.nextOut, sys.d.calls.closeCall.Some?);
      if f.request.run.Some? {
        RunAccepted(sent, sys.dr, sys.w, v.nextOut, sys.d.calls.closeCall.Some?);
        FlightPending(v, sys.w, sys.dr, sys.ur);
        BegunCalls(v, sys.w, sys.dr, sys.ur);
        assert Receive(sys.w, f) == Begun(sys.w, f.id, f.request) by { BegunIsReceived(sys.w, f); }
      } else {
        ReadCall(sys.w, f.id, f.request);
        ReadCalls(v, sys.w, Receive(sys.w, f), sys.dr, sys.ur, v.nextOut, sys.d.calls.closeCall.Some?);
      }
    }
  }

  lemma BegunIsReceived(w: Worker, f: Down)
    requires RunFrame(f) && Issued(f.request) && f.id > w.lastIn && ExecuteCode(w.cursor, RunOf(f.request)) == 0
    ensures Receive(w, f) == Begun(w, f.id, f.request)
  {
  }

  lemma FlightPending(v: View, w: Worker, dr: nat, ur: nat)
    requires MatchOk(v, w, dr, ur) && dr < |v.sent| && v.sent[dr].Call?
    ensures v.sent[dr].id in v.pending && v.pending[v.sent[dr].id] == v.sent[dr].request
  {
  }

  /** A pending run stays in its place through every step of either end. */
  lemma CallsStep(e: Env, sys: System, step: Step)
    requires LinkInv(sys) && RunsPlaced(sys)
    requires step == DaemonReads ==> sys.ur < |sys.w.out|
    ensures RunsPlaced(Next(e, sys, step))
  {
    hide LinkInv, Handle, Receive, Advance, Enabled, RunCallsOk;
    match step
    case Daemon(event) => if External(event) { ExternalCalls(e, sys, event); }
    case DaemonReads =>
      if sys.d.wire.stopping {
        StoppedStays(e, sys.d, EventOf(sys.w.out[sys.ur]));
      } else if sys.w.out[sys.ur].Reply? {
        ReplyCalls(e, sys);
      } else {
        ReadyCalls(e, sys);
      }
    case WorkerReads =>
      if !sys.d.wire.stopping && sys.dr < |sys.d.wire.sent| && !sys.w.dead { ReadsCalls(e, sys); }
    case WorkerActs(s) =>
      if !sys.d.wire.stopping && Enabled(sys.w, s) {
        LinkFacts(sys);
        ActCalls(ViewOf(sys.d), sys.w, s, sys.dr, sys.ur);
      }
  }

  lemma StoppedStays(e: Env, s: State, event: Event)
    requires s.wire.stopping
    ensures Handle(e, s, event).wire.stopping
  {
    hide GivenUp, Settled;
  }
}
