/**
  The end of a turn, in every interleaving: who is sent a notice, and when an
  idle lane is due to be closed.
 */
module TurnEnds {
  import opened Common
  import opened RunIds
  import opened SessionModel
  import opened SessionProofs
  import opened WorkerModel
  import opened LaneLink
  import opened LaneOrder
  import opened Notices
  import Provenance

  // ---- the auto-close deadline ----

  /** No deadline runs while a run does; without one, and unless the lane is closing, the timer runs exactly if there is a deadline. */
  predicate ClockOk(s: State) {
    && (s.runs.current.Some? ==> s.clock.deadline == 0)
    && (s.clock.armed ==> s.clock.deadline != 0)
    && (s.calls.closeCall.None? && !s.wire.closed && s.clock.deadline != 0 ==> s.clock.armed)
  }

  /** The deadline the lane has, or will have again if its run is refused. */
  function Due(s: State): nat { if s.runs.current.Some? then s.clock.previous else s.clock.deadline }

  /** Nothing about deadlines changes, except that starting a run suspends the one there is. */
  predicate Suspends(s: State, u: State) {
    && ClockOk(u) && Due(u) == Due(s) && u.calls.closeCall == s.calls.closeCall && u.wire.closed == s.wire.closed
    && u.clock.now == s.clock.now
  }

  lemma WriteSuspends(e: Env, s: State, r: Request)
    requires ClockOk(s) && r.run.None?
    ensures Suspends(s, Write(e, s, r))
  {
  }

  lemma LaunchSuspends(e: Env, s: State, r: Request)
    requires ClockOk(s) && s.runs.current.None? && s.calls.closeCall.None? && !s.wire.closed
    ensures Suspends(s, Launch(e, s, r))
  {
  }

  lemma {:induction false} DrainSuspends(e: Env, s: State)
    requires ClockOk(s) && Core(s) && Bounded(ViewOf(s)) && !s.wire.stopping && !s.entry.peer
    ensures Suspends(s, StartDeferred(e, s))
    decreases |s.calls.deferred|
  {
    hide CallsOk, WireOk, Kept, RunsOk, Issue, Launch, ClockOk, Due;
    if s.runs.current.None? && s.calls.deferred != [] {
      OpenView0(s);
      PromiseIsKept(s);
      QueueMeansOpen(s);
      var p := Popped(s);
      PoppedSuspends(s);
      LaunchSuspends(e, p, s.calls.deferred[0]);
      DrainStep(e, s);
      KeptMeans(p, Issue(e, p, s.calls.deferred[0]));
      DrainSuspends(e, Issue(e, p, s.calls.deferred[0]));
    }
  }

  lemma QueueMeansOpen(s: State)
    requires Core(s) && s.calls.deferred != []
    ensures s.calls.closeCall.None?
  {
  }

  lemma PoppedSuspends(s: State)
    requires ClockOk(s) && s.calls.deferred != []
    ensures ClockOk(Popped(s)) && Due(Popped(s)) == Due(s)
  {
  }

  lemma IssueClock(e: Env, s: State, r0: Request)
    requires ClockOk(s) && RunsOk(s) && FlagsOk(s) && !s.entry.peer && Issuable(r0)
    ensures ClockOk(Issue(e, s, r0))
  {
    hide Write, Launch, HasRunCapacity, Noted, GivenUp, WriteDeferredClose;
    var r := Normalized(r0);
    if Refusal(s, r0) == 0 {
      if r.verb == Close {
        CloseClock(e, CloseTaken(s, r));
      } else if r.verb == Execute || Seeds(s, r) {
        LaunchSuspends(e, s, r);
      } else {
        WriteSuspends(e, s, r);
      }
    }
  }

  lemma CloseClock(e: Env, s: State)
    requires ClockOk(s)
    ensures ClockOk(WriteDeferredClose(e, s))
  {
  }

  lemma AnswerClock(s: State, u: State)
    requires ClockOk(s) && u.runs.current == s.runs.current && u.clock == s.clock.(closeTimer := u.clock.closeTimer) && u.calls.closeCall == s.calls.closeCall && u.wire.closed == s.wire.closed
    ensures ClockOk(u)
  {
  }

  lemma RetainClock(e: Env, s: State, r: Request)
    requires ClockOk(s) && Inv(s) && !s.entry.peer && Issued(r) && r.verb == Deliver && r.run.None?
    ensures ClockOk(Retain(e, s, r))
  {
    hide Issue, HasRunCapacity, Noted, CallsOk, WireOk, RunsOk;
    if s.runs.current.None? {
      IssueClock(e, s, r);
    }
  }

  lemma SettleClock(e: Env, s: State, r: Request, response: Response)
    requires ClockOk(s) && DaemonOk(s) && !s.wire.stopping && Issued(r) && RunReply(r, response)
    ensures ClockOk(SettleResponse(e, s, r, response))
  {
    var u := SettleResponse(e, s, r, response);
    OpenView(s);
    if r.destination == s.entry.identity && s.entry.attached && r.verb != Close && Retained(s, r, response) {
      RetainClock(e, s, r);
    } else if r.destination == s.entry.identity && s.entry.attached && r.verb != Close && response.Failed? {
      FailureKept(e, s, r, response.code);
      AnswerClock(s, u);
    } else if r.destination == s.entry.identity && s.entry.attached && r.verb == Execute && r.collect && response.Succeeded? {
      IssueClock(e, s, Collector(r, r.run.value));
    } else {
      hide ClockOk, Issue, Retain, FailResponse;
      AnswerClock(s, u);
    }
  }

  lemma ReceiveClock(e: Env, s: State, id: nat, response: Response)
    requires ClockOk(s) && DaemonOk(s) && !s.wire.stopping && id in s.calls.pending && RunReply(s.calls.pending[id], response)
    ensures ClockOk(ReceiveResponse(e, s, id, response))
  {
    hide SettleResponse, WriteDeferredClose, RunsOk, WireOk;
    var r, m := s.calls.pending[id], Removed(s, id);
    ReplySettles(e, s, id, response);
    AnswerClock(s, m);
    hide ClockOk;
    SettleClock(e, m, r, response);
    CloseClock(e, SettleResponse(e, m, r, response));
  }

  lemma AckedClock(e: Env, s: State, call: nat, done: bool)
    requires ClockOk(s) && s.runs.current.Some? && !s.wire.closed
    ensures var m := TurnAcked(e, s, call, done);
      && ClockOk(m) && m.clock.now == s.clock.now
      && Due(m) == if done && e.autoClose > 0 && s.calls.closeCall.None? then s.clock.now + e.autoClose else 0
  {
  }

  /** When an idle lane is to be closed after a turn; zero is never. */
  function DueAfter(e: Env, s: State, done: bool): nat {
    if done && e.autoClose > 0 && s.calls.closeCall.None? then s.clock.now + e.autoClose else 0
  }

  lemma ReadyClock(e: Env, s: State, call: nat, id: RunId, done: bool)
    requires ClockOk(s) && DaemonOk(s) && !s.wire.stopping && ReadyMatches(s, id)
    ensures var u := TurnReady(e, s, call, id, done);
      ClockOk(u) && Due(u) == DueAfter(e, s, done) && u.calls.closeCall == s.calls.closeCall && u.wire.closed == s.wire.closed
  {
    hide StartDeferred, RunsOk, CallsOk, WireOk, TurnAcked, ClockOk, Due;
    var m := TurnAcked(e, s, call, done);
    AckedClock(e, s, call, done);
    AckedFlags(e, s, call, id, done);
    TurnReadyKept(e, s, call, id, done);
    DrainSuspends(e, m);
    var d, u := StartDeferred(e, m), TurnReady(e, s, call, id, done);
    AnswerClock(d, u);
    SameDue(d, u);
    AckedClose(e, s, call, done);
  }

  lemma SameDue(s: State, u: State)
    requires u.runs == s.runs && u.clock == s.clock
    ensures Due(u) == Due(s)
  {
  }

  lemma AckedClose(e: Env, s: State, call: nat, done: bool)
    ensures var m := TurnAcked(e, s, call, done); m.calls == s.calls && m.wire.closed == s.wire.closed && m.wire.stopping == s.wire.stopping
  {
  }

  lemma ExternalClock(e: Env, s: State, event: Event)
    requires ClockOk(s) && DaemonOk(s) && External(event)
    ensures ClockOk(Handle(e, s, event))
  {
    hide Issue, WriteDeferredClose, CallsOk, WireOk, GivenUp, Settled, Noted;
    match event
    case Routed(r) => if !(s.wire.stopping || r.destination != s.entry.identity || s.entry.launching) { IssueClock(e, s, r); }
    case Retire(ticket) => CloseClock(e, CloseTaken(s, Request(ticket, s.entry.identity, Close, None, None, false, false, false, false)));
    case _ =>
  }

  lemma ReadsClock(e: Env, sys: System)
    requires LinkInv(sys) && ClockOk(sys.d) && sys.ur < |sys.w.out|
    ensures ClockOk(Handle(e, sys.d, EventOf(sys.w.out[sys.ur])))
  {
    hide ClockOk, StreamOk, WorkerOk, Joint, DaemonOk, ReceiveResponse, TurnReady, ViewOf;
    var s := sys.d;
    if !s.wire.stopping {
      match sys.w.out[sys.ur]
      case Reply(id, response) =>
        ReplyExpected(ViewOf(s), sys.w, sys.dr, sys.ur);
        ViewPending(s);
        ReceiveClock(e, s, id, response);
      case ReadyCall(id, run, done) =>
        ReadyExpected(ViewOf(s), sys.w, sys.dr, sys.ur);
        ViewPending(s);
        ReadyClock(e, s, id, run, done);
    }
  }

  lemma {:induction false} ClockSafety(e: Env, identity: nat, steps: seq<Step>)
    requires AllHonest(steps)
    ensures ClockOk(Run(e, Opened(identity), steps).d)
    decreases |steps|
  {
    hide ClockOk, Handle, Receive, Advance, Enabled, StreamOk, WorkerOk, Joint, DaemonOk;
    if steps == [] {
      StartClock(identity);
    } else {
      var n := |steps| - 1;
      assert AllHonest(steps[..n]);
      ClockSafety(e, identity, steps[..n]);
      LaneSafety(e, identity, steps[..n]);
      var sys := Run(e, Opened(identity), steps[..n]);
      match steps[n]
      case Daemon(event) => if External(event) { ExternalClock(e, sys.d, event); }
      case DaemonReads => if sys.ur < |sys.w.out| { ReadsClock(e, sys); }
      case _ =>
    }
  }

  lemma StartClock(identity: nat)
    ensures ClockOk(Opened(identity).d)
  {
  }

  /**
    In every interleaving: while a run is under way no auto-close timer runs, and
    on an open lane without one it runs exactly if there is a deadline. The end
    of a turn sets the deadline if the turn is done and the lane closes by itself;
    if a queued delivery starts the next run, the deadline waits for that run, and
    is back if the run is refused.
   */
  lemma IdleLaneIsDue(e: Env, identity: nat, steps: seq<Step>)
    requires AllHonest(steps)
    ensures var s := Run(e, Opened(identity), steps).d;
      && (s.runs.current.Some? ==> !s.clock.armed)
      && (s.runs.current.None? && s.calls.closeCall.None? && !s.wire.closed ==> s.clock.armed == (s.clock.deadline != 0))
    ensures var sys := Run(e, Opened(identity), steps);
      sys.ur < |sys.w.out| && sys.w.out[sys.ur].ReadyCall? && !sys.d.wire.stopping ==>
        var s, u := sys.d, Next(e, sys, DaemonReads).d;
        var due := if sys.w.out[sys.ur].done && e.autoClose > 0 && s.calls.closeCall.None? then s.clock.now + e.autoClose else 0;
        && u.calls.closeCall == s.calls.closeCall
        && (u.runs.current.None? ==> u.clock.deadline == due) && (u.runs.current.Some? ==> u.clock.deadline == 0 && u.clock.previous == due)
  {
    hide Run, StreamOk, WorkerOk, Joint, TurnReady, ViewOf;
    ClockSafety(e, identity, steps);
    LaneSafety(e, identity, steps);
    var sys := Run(e, Opened(identity), steps);
    if sys.ur < |sys.w.out| && sys.w.out[sys.ur].ReadyCall? && !sys.d.wire.stopping {
      ReadyExpected(ViewOf(sys.d), sys.w, sys.dr, sys.ur);
      ViewPending(sys.d);
      ReadyClock(e, sys.d, sys.w.out[sys.ur].id, sys.w.out[sys.ur].run, sys.w.out[sys.ur].done);
    }
  }

  // ---- notices ----

  lemma WriteAdds(e: Env, s: State, r: Request)
    ensures s.wire.sent <= Write(e, s, r).wire.sent
  {
  }

  lemma CloseAdds(e: Env, s: State)
    ensures s.wire.sent <= WriteDeferredClose(e, s).wire.sent
  {
  }

  lemma IssueAdds(e: Env, s: State, r0: Request)
    ensures s.wire.sent <= Issue(e, s, r0).wire.sent
  {
    hide Write, WriteDeferredClose, Refusal, Noted, GivenUp;
    var r := Normalized(r0);
    var s1 := ReserveRun(e, s);
    WriteAdds(e, s1.(runs := s1.runs.(fromTrace := r.verb == Deliver && r.traceCopy,
                                      fromCompletion := r.verb == Deliver && r.completion)), r.(run := s1.runs.current));
    WriteAdds(e, s, r);
    CloseAdds(e, CloseTaken(s, r));
  }

  lemma {:induction false} DrainAdds(e: Env, s: State)
    ensures s.wire.sent <= StartDeferred(e, s).wire.sent
    decreases |s.calls.deferred|
  {
    hide Issue;
    if s.runs.current.None? && s.calls.deferred != [] {
      IssueAdds(e, Popped(s), s.calls.deferred[0]);
      DrainAdds(e, Issue(e, Popped(s), s.calls.deferred[0]));
    }
  }

  lemma SettleAdds(e: Env, s: State, r: Request, response: Response)
    ensures s.wire.sent <= SettleResponse(e, s, r, response).wire.sent
  {
    hide Issue, StartDeferred, RefuseRun, Noted, HasRunCapacity;
    RefuseKeeps(s, r.run);
    forall u: State ensures u.wire.sent <= StartDeferred(e, u).wire.sent { DrainAdds(e, u); }
    forall q: Request ensures s.wire.sent <= Issue(e, s, q).wire.sent { IssueAdds(e, s, q); }
  }

  /** Frames are only ever added to the wire. */
  lemma HandleAdds(e: Env, s: State, event: Event)
    ensures s.wire.sent <= Handle(e, s, event).wire.sent
  {
    hide Issue, SettleResponse, StartDeferred, WriteDeferredClose, GivenUp, Settled, Noted;
    match event
    case Routed(r) => IssueAdds(e, s, r);
    case Answered(id, response) =>
      if id in s.calls.pending {
        SettleAdds(e, Removed(s, id), s.calls.pending[id], response);
        CloseAdds(e, SettleResponse(e, Removed(s, id), s.calls.pending[id], response));
      }
    case Ready(call, id, done) => DrainAdds(e, TurnAcked(e, s, call, done));
    case Retire(ticket) => CloseAdds(e, CloseTaken(s, Request(ticket, s.entry.identity, Close, None, None, false, false, false, false)));
    case _ =>
  }

  ghost predicate HasFrame(sent: seq<Down>, run: RunId) { exists i :: 0 <= i < |sent| && Starts(sent[i], run) }

  /** The run of a turn, announced or not, was started by a frame on the wire. */
  ghost predicate Framed(sys: System) {
    && (sys.w.turn.Some? ==> HasFrame(sys.d.wire.sent, sys.w.turn.value.run))
    && (forall j :: 0 <= j < |sys.w.out| && sys.w.out[j].ReadyCall? ==> HasFrame(sys.d.wire.sent, sys.w.out[j].run))
  }

  lemma MoreFrames(sent: seq<Down>, more: seq<Down>, run: RunId)
    requires HasFrame(sent, run) && sent <= more
    ensures HasFrame(more, run)
  {
    var i :| 0 <= i < |sent| && Starts(sent[i], run);
    assert Starts(more[i], run);
  }

  lemma DaemonFramed(e: Env, sys: System, event: Event, ur: nat)
    requires Framed(sys)
    ensures Framed(sys.(d := Handle(e, sys.d, event), ur := ur))
  {
    hide Handle, HasFrame;
    HandleAdds(e, sys.d, event);
    var more := Handle(e, sys.d, event).wire.sent;
    forall run | HasFrame(sys.d.wire.sent, run) ensures HasFrame(more, run) { MoreFrames(sys.d.wire.sent, more, run); }
  }

  lemma ReadFramed(sys: System)
    requires Framed(sys) && sys.dr < |sys.d.wire.sent|
    ensures Framed(sys.(w := Receive(sys.w, sys.d.wire.sent[sys.dr]), dr := sys.dr + 1))
  {
    var f := sys.d.wire.sent[sys.dr];
    if f.Call? && f.request.run.Some? {
      assert Starts(f, f.request.run.value);
    }
    hide Accept, Acknowledge, Publish, AckCode;
  }

  lemma StepFramed(e: Env, sys: System, step: Step)
    requires Framed(sys)
    ensures Framed(Next(e, sys, step))
  {
    hide Handle, Receive, HasFrame;
    match step
    case Daemon(event) => DaemonFramed(e, sys, event, sys.ur);
    case DaemonReads => if sys.ur < |sys.w.out| { DaemonFramed(e, sys, EventOf(sys.w.out[sys.ur]), sys.ur + 1); }
    case WorkerReads => if sys.dr < |sys.d.wire.sent| { ReadFramed(sys); }
    case WorkerActs(s) =>
  }

  lemma {:induction false} FrameSafety(e: Env, identity: nat, steps: seq<Step>)
    ensures Framed(Run(e, Opened(identity), steps))
    decreases |steps|
  {
    hide Framed, Next;
    if steps == [] {
      StartFramed(identity);
    } else {
      FrameSafety(e, identity, steps[..|steps| - 1]);
      StepFramed(e, Run(e, Opened(identity), steps[..|steps| - 1]), steps[|steps| - 1]);
    }
  }

  lemma StartFramed(identity: nat)
    ensures Framed(Opened(identity))
  {
  }

  /**
    In every interleaving, the end of a turn that the daemon reads is the end of a
    run that a frame on the wire started. A notice is sent for it if and only if
    the lane sends notices and is not being closed, and that frame is not itself a
    notice; it may be traced if and only if that frame is not a trace copy.
   */
  lemma EndOfTurnIsNoticed(e: Env, identity: nat, steps: seq<Step>)
    requires AllHonest(steps)
    requires var sys := Run(e, Opened(identity), steps); sys.ur < |sys.w.out| && sys.w.out[sys.ur].ReadyCall? && !sys.d.wire.stopping
    ensures var sys := Run(e, Opened(identity), steps);
      var s, run, u := sys.d, sys.w.out[sys.ur].run, Next(e, sys, DaemonReads).d;
      exists i :: 0 <= i < |s.wire.sent| && Starts(s.wire.sent[i], run) &&
        u.books.notices == s.books.notices +
          (if e.notifies && s.calls.closeCall.None? && !Marked(s.wire.sent[i]) then [Charge(run, !Copied(s.wire.sent[i]))] else [])
  {
    hide Run, StreamOk, WorkerOk, Joint, ViewOf, StartDeferred, RunsOk, CallsOk, WireOk;
    LaneSafety(e, identity, steps);
    NoticeSafety(e, identity, steps);
    FrameSafety(e, identity, steps);
    var sys := Run(e, Opened(identity), steps);
    var s, run := sys.d, sys.w.out[sys.ur].run;
    ReadyExpected(ViewOf(s), sys.w, sys.dr, sys.ur);
    ViewPending(s);
    assert HasFrame(s.wire.sent, run);
    var i :| 0 <= i < |s.wire.sent| && Starts(s.wire.sent[i], run);
    assert Marked(s.wire.sent[i]) == s.runs.fromCompletion && Copied(s.wire.sent[i]) == s.runs.fromTrace;
    TurnNotices(e, s, sys.w.out[sys.ur].id, run, sys.w.out[sys.ur].done);
  }

  lemma TurnNotices(e: Env, s: State, call: nat, id: RunId, done: bool)
    requires DaemonOk(s) && !s.wire.stopping && ReadyMatches(s, id)
    ensures TurnReady(e, s, call, id, done).books.notices == s.books.notices +
      if e.notifies && s.calls.closeCall.None? && !s.runs.fromCompletion then [Charge(id, !s.runs.fromTrace)] else []
  {
    hide StartDeferred, WireOk, RunsOk;
    var m := TurnAcked(e, s, call, done);
    DrainGoes(e, m);
    Provenance.StartDeferredCharges(e, m);
  }
}
