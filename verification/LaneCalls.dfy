/**
  No call is lost between the two ends of a lane, and no acknowledgement: while
  the wire is whole and the worker lives, every pending call is on its way, owed
  by the worker, or answered and unread; and the daemon's count of acknowledged
  runs is behind the worker's only while it has still to read the answer to the
  acknowledgement.
 */
module LaneCalls {
  import opened Common
  import opened RunIds
  import opened SessionModel
  import opened SessionProofs
  import opened WorkerModel
  import opened LaneLink
  import opened RunCalls
  import opened LaneOrder

  ghost predicate OnWay(sent: seq<Down>, dr: nat, id: nat) { exists j :: dr <= j < |sent| && sent[j].Call? && sent[j].id == id }

  ghost predicate Unread(out: seq<Up>, ur: nat, id: nat) { exists k :: ur <= k < |out| && out[k].Reply? && out[k].id == id }

  predicate Owed(w: Worker, id: nat) { id in w.jobs || (w.turn.Some? && !w.turn.value.answered && w.turn.value.call == id) }

  ghost predicate Held(v: View, w: Worker, dr: nat, ur: nat, id: nat) { OnWay(v.sent, dr, id) || Owed(w, id) || Unread(w.out, ur, id) }

  ghost predicate AllHeld(v: View, w: Worker, dr: nat, ur: nat) {
    v.cut || w.dead || forall id :: id in v.pending ==> Held(v, w, dr, ur, id)
  }

  // ---- the daemon ----

  lemma MovedHeld(v: View, u: View, w: Worker, dr: nat, ur: nat)
    requires AllHeld(v, w, dr, ur) && Moved(v, u) && dr <= |v.sent|
    ensures AllHeld(u, w, dr, ur)
  {
    if !u.cut && !w.dead {
      forall id | id in u.pending
        ensures Held(u, w, dr, ur, id)
      {
        if id in v.pending && OnWay(v.sent, dr, id) {
          var j :| dr <= j < |v.sent| && v.sent[j].Call? && v.sent[j].id == id;
          assert u.sent[j] == v.sent[j];
        } else if id !in v.pending || id == u.nextOut {
          assert Still(v, u) || (u.sent[|v.sent|].Call? && u.sent[|v.sent|].id == id);
        }
      }
    }
  }

  lemma RemovedHeld(v: View, w: Worker, dr: nat, ur: nat)
    requires AllHeld(v, w, dr, ur) && ur < |w.out| && w.out[ur].Reply?
    ensures AllHeld(v.(pending := v.pending - {w.out[ur].id}), w, dr, ur + 1)
  {
    var u := v.(pending := v.pending - {w.out[ur].id});
    if !u.cut && !w.dead {
      forall id | id in u.pending
        ensures Held(u, w, dr, ur + 1, id)
      {
        if Unread(w.out, ur, id) {
          var k :| ur <= k < |w.out| && w.out[k].Reply? && w.out[k].id == id;
          assert k != ur;
        }
      }
    }
  }

  lemma RespondedHeld(v: View, u: View, r: Request, response: Response, w: Worker, dr: nat, ur: nat)
    requires AllHeld(v, w, dr, ur) && Responded(v, u, r, response) && dr <= |v.sent|
    ensures AllHeld(u, w, dr, ur)
  {
    if Moved(v, u) {
      MovedHeld(v, u, w, dr, ur);
    }
  }

  lemma TurnOverHeld(v: View, u: View, w: Worker, dr: nat, ur: nat)
    requires AllHeld(v, w, dr, ur) && ur < |w.out| && w.out[ur].ReadyCall? && TurnOver(v, u, w.out[ur].id)
    ensures AllHeld(u, w, dr, ur + 1)
  {
    if !u.cut && !w.dead {
      forall id | id in u.pending
        ensures Held(u, w, dr, ur + 1, id)
      {
        if OnWay(v.sent, dr, id) {
          var j :| dr <= j < |v.sent| && v.sent[j].Call? && v.sent[j].id == id;
          assert u.sent[j] == v.sent[j];
        } else if Unread(w.out, ur, id) {
          var k :| ur <= k < |w.out| && w.out[k].Reply? && w.out[k].id == id;
          assert k != ur;
        }
      }
    }
  }

  // ---- the worker ----

  /** The worker has read the frame at dr; what it owed and wrote it still owes and has written. */
  lemma ReadHeld(v: View, w: Worker, x: Worker, dr: nat, ur: nat)
    requires AllHeld(v, w, dr, ur) && dr < |v.sent| && !w.dead && x.out == w.out
    requires forall id :: Owed(w, id) ==> x.dead || Owed(x, id)
    requires v.sent[dr].Call? ==> x.dead || Owed(x, v.sent[dr].id)
    ensures AllHeld(v, x, dr + 1, ur)
  {
    if !v.cut && !x.dead {
      forall id | id in v.pending
        ensures Held(v, x, dr + 1, ur, id)
      {
        if OnWay(v.sent, dr, id) {
          var j :| dr <= j < |v.sent| && v.sent[j].Call? && v.sent[j].id == id;
          assert j > dr || Owed(x, id);
        }
      }
    }
  }

  /** Whatever the worker reads, it owes an answer to it: the turn its own, everything else a job. */
  lemma ReadOwes(w: Worker, f: Down)
    requires !w.dead && (w.turn.Some? ==> w.turn.value.answered || !(f.Call? && f.request.run.Some?))
    requires f.ReadyAck? ==> w.turn.Some? && w.turn.value.announced == Some(f.id) && w.turn.value.answered
    requires f.Call? ==> f.id > w.lastIn && Issued(f.request)
    requires f.Call? && f.request.run.Some? ==> ExecuteCode(w.cursor, RunOf(f.request)) == 0
    ensures var x := Receive(w, f);
      x.out == w.out && (forall id :: Owed(w, id) ==> x.dead || Owed(x, id)) && (f.Call? ==> x.dead || Owed(x, f.id))
  {
    hide ExecuteCode, AckCode, Accept, Acknowledge, Publish, InterruptResponse;
  }

  lemma ActHeld(v: View, w: Worker, step: WorkerStep, dr: nat, ur: nat)
    requires AllHeld(v, w, dr, ur) && Enabled(w, step) && ur <= |w.out|
    ensures AllHeld(v, Advance(w, step), dr, ur)
  {
    var x := Advance(w, step);
    if !v.cut && !x.dead {
      forall id | id in v.pending
        ensures Held(v, x, dr, ur, id)
      {
        if Unread(w.out, ur, id) {
          var k :| ur <= k < |w.out| && w.out[k].Reply? && w.out[k].id == id;
          assert x.out[k] == w.out[k];
        } else if Owed(w, id) && !Owed(x, id) {
          assert x.out[|w.out|].Reply? && x.out[|w.out|].id == id;
        }
      }
    }
  }

  // ---- acknowledgements ----

  /** The worker has released the runs up to `acknowledged` for call id, and the daemon has still to read so. */
  predicate Releases(v: View, w: Worker, id: nat) {
    && id in v.pending && v.pending[id].verb == Ack && v.pending[id].ref.Some? && v.pending[id].ref.value.Exact?
    && w.cursor.generation == Some(v.pending[id].ref.value.id.generation) && v.pending[id].ref.value.id.sequence == w.cursor.acknowledged
  }

  ghost predicate Granted(w: Worker, ur: nat, id: nat) {
    (id in w.jobs && w.jobs[id] == Decided(Succeeded(None))) || exists k :: ur <= k < |w.out| && w.out[k] == Reply(id, Succeeded(None))
  }

  ghost predicate AcksHeld(v: View, w: Worker, ur: nat) {
    v.acknowledged == w.cursor.acknowledged || exists id :: Releases(v, w, id) && Granted(w, ur, id)
  }

  /** Pending calls stay, and nothing is recorded. */
  lemma KeepsAcks(v: View, u: View, w: Worker, ur: nat)
    requires AcksHeld(v, w, ur) && u.acknowledged == v.acknowledged
    requires forall id :: id in v.pending ==> id in u.pending && u.pending[id] == v.pending[id]
    ensures AcksHeld(u, w, ur)
  {
    if v.acknowledged != w.cursor.acknowledged {
      var id :| Releases(v, w, id) && Granted(w, ur, id);
      assert Releases(u, w, id);
    }
  }

  lemma OtherReplyAcks(v: View, w: Worker, dr: nat, ur: nat)
    requires AcksHeld(v, w, ur) && MatchOk(v, w, dr, ur) && ur < |w.out| && w.out[ur].Reply?
    requires !(Releases(v, w, w.out[ur].id) && w.out[ur].response == Succeeded(None))
    ensures AcksHeld(v.(pending := v.pending - {w.out[ur].id}), w, ur + 1)
  {
    var u := v.(pending := v.pending - {w.out[ur].id});
    if v.acknowledged != w.cursor.acknowledged {
      var id :| Releases(v, w, id) && Granted(w, ur, id);
      assert id != w.out[ur].id by {
        if id in w.jobs {
          assert !Replied(w.out, id);
        }
      }
      assert Releases(u, w, id);
      if id !in w.jobs || w.jobs[id] != Decided(Succeeded(None)) {
        var k :| ur <= k < |w.out| && w.out[k] == Reply(id, Succeeded(None));
        assert k != ur;
      }
      assert Granted(w, ur + 1, id);
    }
  }

  lemma TurnOverAcks(v: View, u: View, w: Worker, ur: nat)
    requires AcksHeld(v, w, ur) && ur < |w.out| && w.out[ur].ReadyCall? && u.pending == v.pending && u.acknowledged == v.acknowledged
    ensures AcksHeld(u, w, ur + 1)
  {
    if v.acknowledged != w.cursor.acknowledged {
      var id :| Releases(v, w, id) && Granted(w, ur, id);
      assert Releases(u, w, id);
      if id !in w.jobs || w.jobs[id] != Decided(Succeeded(None)) {
        var k :| ur <= k < |w.out| && w.out[k] == Reply(id, Succeeded(None));
        assert k != ur;
      }
    }
  }

  lemma ActAcks(v: View, w: Worker, step: WorkerStep, ur: nat)
    requires AcksHeld(v, w, ur) && Enabled(w, step) && ur <= |w.out|
    ensures AcksHeld(v, Advance(w, step), ur)
  {
    var x := Advance(w, step);
    if v.acknowledged != w.cursor.acknowledged {
      var id :| Releases(v, w, id) && Granted(w, ur, id);
      assert Releases(v, x, id);
      if id in w.jobs && w.jobs[id] == Decided(Succeeded(None)) {
        if id !in x.jobs {
          assert x.out[|w.out|] == Reply(id, Succeeded(None));
        }
      } else {
        var k :| ur <= k < |w.out| && w.out[k] == Reply(id, Succeeded(None));
        assert x.out[k] == w.out[k];
      }
    }
  }

  /** Reading a frame: jobs are added; only an acknowledgement releases runs, and then its success is owed. */
  lemma ReadReleases(w: Worker, f: Down)
    requires RecordsOk(w.cursor) && (f.Call? ==> f.id !in w.jobs)
    ensures var x := Receive(w, f);
      && x.out == w.out && (forall id :: id in w.jobs ==> id in x.jobs && x.jobs[id] == w.jobs[id])
      && (w.cursor.generation.Some? ==> x.cursor.generation == w.cursor.generation)
      && (x.cursor.acknowledged != w.cursor.acknowledged ==>
            && f.Call? && f.request.verb == Ack && f.request.ref.Some? && f.request.ref.value.Exact?
            && x.cursor.generation == Some(f.request.ref.value.id.generation) && f.request.ref.value.id.sequence == x.cursor.acknowledged
            && f.id in x.jobs && x.jobs[f.id] == Decided(Succeeded(None)))
  {
    hide InterruptResponse;
    if f.Call? && f.request.verb != Ack {
      hide AckCode, Acknowledge;
    }
  }

  lemma ReadAcks(v: View, w: Worker, dr: nat, ur: nat)
    requires AcksHeld(v, w, ur) && MatchOk(v, w, dr, ur) && RecordsOk(w.cursor) && v.acknowledged <= w.cursor.acknowledged
    requires dr < |v.sent| && (v.sent[dr].Call? ==> v.sent[dr].id > w.lastIn && Issued(v.sent[dr].request))
    ensures AcksHeld(v, Receive(w, v.sent[dr]), ur)
  {
    var f, x := v.sent[dr], Receive(w, v.sent[dr]);
    ReadReleases(w, f);
    hide Receive;
    if x.cursor.acknowledged != w.cursor.acknowledged {
      assert Releases(v, x, f.id) && Granted(x, ur, f.id);
    } else if v.acknowledged != w.cursor.acknowledged {
      var id :| Releases(v, w, id) && Granted(w, ur, id);
      assert Releases(v, x, id) && Granted(x, ur, id);
    }
  }

  /** The daemon reads that an acknowledgement succeeded, and records it. */
  lemma AckIsRecorded(e: Env, s: State, r: Request, w: Worker)
    requires r.verb == Ack && r.ref.Some? && r.ref.value.Exact? && r.destination == s.entry.identity && s.entry.attached
    requires s.runs.generation == Some(r.ref.value.id.generation) && r.ref.value.id.sequence == w.cursor.acknowledged
    requires s.runs.acknowledged <= w.cursor.acknowledged <= s.runs.sequence
    ensures SettleResponse(e, s, r, Succeeded(None)).runs.acknowledged == w.cursor.acknowledged
  {
  }

  // ---- every step ----

  ghost predicate SysHeld(sys: System) {
    !sys.d.wire.stopping ==> AllHeld(ViewOf(sys.d), sys.w, sys.dr, sys.ur) && AcksHeld(ViewOf(sys.d), sys.w, sys.ur)
  }

  lemma MovedAcks(v: View, u: View, w: Worker, ur: nat)
    requires AcksHeld(v, w, ur) && Moved(v, u) && forall id :: id in v.pending ==> id <= v.nextOut
    ensures AcksHeld(u, w, ur)
  {
    KeepsAcks(v, u, w, ur);
  }

  lemma ExternalHeld(e: Env, sys: System, event: Event)
    requires LinkInv(sys) && SysHeld(sys) && External(event)
    ensures SysHeld(Next(e, sys, Daemon(event)))
  {
    hide AllHeld, AcksHeld, Handle, Joint, PairOk, ReadyOk, MatchOk, StreamOk, WorkerOk, TurnOk, Inv, Bounded, Moved, SentOk;
    if !Handle(e, sys.d, event).wire.stopping {
      ExternalMoves(e, sys.d, event);
      LinkFacts(sys);
      Numbering(sys.d);
      MovedHeld(ViewOf(sys.d), ViewOf(Handle(e, sys.d, event)), sys.w, sys.dr, sys.ur);
      MovedAcks(ViewOf(sys.d), ViewOf(Handle(e, sys.d, event)), sys.w, sys.ur);
    }
  }

  lemma ReadyHeld(e: Env, sys: System)
    requires LinkInv(sys) && SysHeld(sys) && sys.ur < |sys.w.out| && sys.w.out[sys.ur].ReadyCall? && !sys.d.wire.stopping
    ensures SysHeld(Next(e, sys, DaemonReads))
  {
    hide AllHeld, AcksHeld, Joint, PairOk, ReadyOk, StreamOk, WorkerOk, TurnOk, Inv, Bounded, Moved, SentOk, TurnReady, TurnAcked, TurnOver, MatchOk;
    var u, v := sys.w.out[sys.ur], ViewOf(sys.d);
    LinkFacts(sys);
    ReadyExpected(v, sys.w, sys.dr, sys.ur);
    ReadyDaemon(e, sys.d, u.id, u.run, u.done);
    var a, t := TurnAcked(e, sys.d, u.id, u.done), TurnReady(e, sys.d, u.id, u.run, u.done);
    Numbering(sys.d);
    TurnOverFacts(v, ViewOf(a), sys.w, sys.dr, sys.ur);
    TurnOverSame(v, ViewOf(a), u.id);
    TurnOverHeld(v, ViewOf(a), sys.w, sys.dr, sys.ur);
    TurnOverAcks(v, ViewOf(a), sys.w, sys.ur);
    MovedHeld(ViewOf(a), ViewOf(t), sys.w, sys.dr, sys.ur + 1);
    MovedAcks(ViewOf(a), ViewOf(t), sys.w, sys.ur + 1);
  }

  lemma TurnOverSame(v: View, u: View, call: nat)
    requires TurnOver(v, u, call)
    ensures u.acknowledged == v.acknowledged
  {
  }

  lemma ReadsHeld(e: Env, sys: System)
    requires LinkInv(sys) && SysHeld(sys) && sys.dr < |sys.d.wire.sent| && !sys.w.dead && !sys.d.wire.stopping
    ensures SysHeld(Next(e, sys, WorkerReads))
  {
    hide AllHeld, AcksHeld, Joint, ReadyOk, StreamOk, DaemonOk, RecordsOk, SentOk, Receive, MatchOk, ExecuteCode;
    var v, sent := ViewOf(sys.d), sys.d.wire.sent;
    var f := sent[sys.dr];
    LinkFacts(sys);
    if f.ReadyAck? {
      AckIsExpected(sent, sys.dr, sys.w);
    } else {
      CallIsFresh(sent, sys.dr, sys.w);
      RunVerb(sent, sys.dr, v.nextOut, sys.d.calls.closeCall.Some?);
      if f.request.run.Some? {
        RunAccepted(sent, sys.dr, sys.w, v.nextOut, sys.d.calls.closeCall.Some?);
      }
    }
    ReadOwes(sys.w, f);
    ReadHeld(v, sys.w, Receive(sys.w, f), sys.dr, sys.ur);
    ReadAcks(v, sys.w, sys.dr, sys.ur);
  }

  /** After the reply at ur was read and settled. */
  lemma SettledHeld(e: Env, sys: System, t: State)
    requires LinkInv(sys) && OrderOk(sys.d) && SysHeld(sys) && sys.ur < |sys.w.out| && sys.w.out[sys.ur].Reply? && !sys.d.wire.stopping
    requires sys.w.out[sys.ur].id in sys.d.calls.pending
    requires var m, r := Removed(sys.d, sys.w.out[sys.ur].id), sys.d.calls.pending[sys.w.out[sys.ur].id];
      && t == SettleResponse(e, m, r, sys.w.out[sys.ur].response) && t.runs.acknowledged <= sys.w.cursor.acknowledged && Responded(ViewOf(m), ViewOf(t), r, sys.w.out[sys.ur].response)
    ensures AllHeld(ViewOf(t), sys.w, sys.dr, sys.ur + 1) && AcksHeld(ViewOf(t), sys.w, sys.ur + 1)
  {
    hide AllHeld, AcksHeld, Joint, ReadyOk, StreamOk, WorkerOk, TurnOk, Inv, Bounded, SentOk, SettleResponse, MatchOk, ReadsOk, CloseLast;
    var u, v := sys.w.out[sys.ur], ViewOf(sys.d);
    var r, m := sys.d.calls.pending[u.id], Removed(sys.d, u.id);
    LinkFacts(sys);
    Numbering(sys.d);
    RemovedHeld(v, sys.w, sys.dr, sys.ur);
    RespondedHeld(ViewOf(m), ViewOf(t), r, u.response, sys.w, sys.dr, sys.ur + 1);
    if Releases(v, sys.w, u.id) && u.response == Succeeded(None) {
      AttachedLane(sys.d);
      AckIsRecorded(e, m, r, sys.w);
      AcksEqual(ViewOf(t), sys.w, sys.ur + 1);
    } else {
      OtherReplyAcks(v, sys.w, sys.dr, sys.ur);
      AckRises(e, m, r, u.response);
      RespondedAcks(ViewOf(m), ViewOf(t), r, u.response, sys.w, sys.ur + 1);
    }
  }

  lemma AcksEqual(v: View, w: Worker, ur: nat)
    requires v.acknowledged == w.cursor.acknowledged
    ensures AcksHeld(v, w, ur)
  {
  }

  lemma AttachedLane(s: State)
    requires Inv(s) && !s.wire.stopping
    ensures s.entry.attached
  {
  }

  lemma AckRises(e: Env, s: State, r: Request, response: Response)
    ensures r.verb == Ack ==> SettleResponse(e, s, r, response).runs.acknowledged >= s.runs.acknowledged
  {
    hide StartDeferred, RefuseRun;
    RefuseAcks(s, r.run);
    forall u: State ensures StartDeferred(e, u).runs.acknowledged == u.runs.acknowledged { DrainAcks(e, u); }
  }

  lemma RefuseAcks(s: State, id: Option<RunId>)
    ensures RefuseRun(s, id).runs.acknowledged == s.runs.acknowledged
  {
  }

  lemma {:induction false} DrainAcks(e: Env, s: State)
    ensures StartDeferred(e, s).runs.acknowledged == s.runs.acknowledged
    decreases |s.calls.deferred|
  {
    hide Issue;
    if s.runs.current.None? && s.calls.deferred != [] {
      IssueAcks(e, Popped(s), s.calls.deferred[0]);
      DrainAcks(e, Issue(e, Popped(s), s.calls.deferred[0]));
    }
  }

  lemma IssueAcks(e: Env, s: State, r: Request)
    ensures Issue(e, s, r).runs.acknowledged == s.runs.acknowledged
  {
    hide GivenUp, Refusal;
  }

  lemma RespondedAcks(v: View, u: View, r: Request, response: Response, w: Worker, ur: nat)
    requires AcksHeld(v, w, ur) && Responded(v, u, r, response) && (forall id :: id in v.pending ==> id <= v.nextOut)
    requires (r.verb == Ack ==> u.acknowledged >= v.acknowledged) && u.acknowledged <= w.cursor.acknowledged
    ensures AcksHeld(u, w, ur)
  {
    if Moved(v, u) {
      MovedAcks(v, u, w, ur);
    } else if u.acknowledged != w.cursor.acknowledged && v.acknowledged != w.cursor.acknowledged {
      var id :| Releases(v, w, id) && Granted(w, ur, id);
      assert Releases(u, w, id);
    }
  }

  lemma ReplyHeld(e: Env, sys: System)
    requires LinkInv(sys) && OrderOk(sys.d) && SysHeld(sys) && sys.ur < |sys.w.out| && sys.w.out[sys.ur].Reply? && !sys.d.wire.stopping
    ensures SysHeld(Next(e, sys, DaemonReads))
  {
    hide AllHeld, AcksHeld, Joint, PairOk, ReadyOk, StreamOk, WorkerOk, TurnOk, Inv, Bounded, Moved, SentOk, SettleResponse, WriteDeferredClose, Responded,
         Settles, RunReply, MatchOk, OrderOk;
    var u, v := sys.w.out[sys.ur], ViewOf(sys.d);
    LinkFacts(sys);
    ReplyExpected(v, sys.w, sys.dr, sys.ur);
    var r, m := sys.d.calls.pending[u.id], Removed(sys.d, u.id);
    ReplySettles(e, sys.d, u.id, u.response);
    var t := SettleResponse(e, m, r, u.response);
    SettledDaemon(m, t, r, u.response);
    if !t.wire.stopping {
      ReplyViews(v, ViewOf(m), ViewOf(t), r, sys.w, sys.dr, sys.ur);
      AcksBehind(ViewOf(t), sys.w, sys.dr, sys.ur + 1);
      SettledHeld(e, sys, t);
      if r.verb == Execute && r.collect {
        CloseHeld(e, t, sys);
      }
    }
    StopsStay(e, t);
  }

  lemma AcksBehind(v: View, w: Worker, dr: nat, ur: nat)
    requires Joint(v, w, dr, ur)
    ensures v.acknowledged <= w.cursor.acknowledged
  {
  }

  lemma CloseHeld(e: Env, t: State, sys: System)
    requires DaemonOk(t) && !t.wire.stopping && AllHeld(ViewOf(t), sys.w, sys.dr, sys.ur + 1) && AcksHeld(ViewOf(t), sys.w, sys.ur + 1)
    requires StreamOk(t.wire.sent, sys.dr, sys.w)
    ensures var u := WriteDeferredClose(e, t);
      !u.wire.stopping ==> AllHeld(ViewOf(u), sys.w, sys.dr, sys.ur + 1) && AcksHeld(ViewOf(u), sys.w, sys.ur + 1)
  {
    hide AllHeld, AcksHeld, RunsOk, CallsOk, WireOk, Bounded, Moved, SentOk, WriteDeferredClose, StreamOk;
    var u := WriteDeferredClose(e, t);
    CloseDaemon(e, t);
    Numbering(t);
    StreamEnds(t.wire.sent, sys.dr, sys.w);
    if !u.wire.stopping {
      MovedHeld(ViewOf(t), ViewOf(u), sys.w, sys.dr, sys.ur + 1);
      MovedAcks(ViewOf(t), ViewOf(u), sys.w, sys.ur + 1);
    }
  }

  lemma HeldStep(e: Env, sys: System, step: Step)
    requires LinkInv(sys) && OrderOk(sys.d) && SysHeld(sys)
    ensures SysHeld(Next(e, sys, step))
  {
    hide LinkInv, OrderOk, Handle, Receive, Advance, Enabled, AllHeld, AcksHeld;
    match step
    case Daemon(event) => if External(event) { ExternalHeld(e, sys, event); }
    case DaemonReads =>
      if sys.ur < |sys.w.out| {
        if sys.d.wire.stopping {
          StoppedStays(e, sys.d, EventOf(sys.w.out[sys.ur]));
        } else if sys.w.out[sys.ur].Reply? {
          ReplyHeld(e, sys);
        } else {
          ReadyHeld(e, sys);
        }
      }
    case WorkerReads =>
      if !sys.d.wire.stopping && sys.dr < |sys.d.wire.sent| && !sys.w.dead { ReadsHeld(e, sys); }
    case WorkerActs(s) =>
      if !sys.d.wire.stopping && Enabled(sys.w, s) {
        LinkFacts(sys);
        ActHeld(ViewOf(sys.d), sys.w, s, sys.dr, sys.ur);
        ActAcks(ViewOf(sys.d), sys.w, s, sys.ur);
      }
  }

  lemma {:induction false} HeldSafety(e: Env, identity: nat, steps: seq<Step>)
    requires AllHonest(steps)
    ensures SysHeld(Run(e, Opened(identity), steps))
    decreases |steps|
  {
    hide SysHeld, Next, LinkInv, OrderOk;
    if steps == [] {
      StartHeld(identity);
    } else {
      var n := |steps| - 1;
      assert AllHonest(steps[..n]);
      HeldSafety(e, identity, steps[..n]);
      LaneSafety(e, identity, steps[..n]);
      OrderSafety(e, identity, steps[..n]);
      HeldStep(e, Run(e, Opened(identity), steps[..n]), steps[n]);
    }
  }

  lemma StartHeld(identity: nat)
    ensures SysHeld(Opened(identity))
  {
  }

  /**
    In every interleaving, while the wire is whole and neither end is stopping,
    each pending call is in a frame the worker has still to read, or owed by the
    worker, or answered in a frame the daemon has still to read. So once both ends
    have read everything and the worker owes nothing, nothing is pending.
   */
  lemma NoCallIsLost(e: Env, identity: nat, steps: seq<Step>, id: nat)
    requires AllHonest(steps)
    requires var sys := Run(e, Opened(identity), steps); !sys.d.wire.stopping && !sys.d.wire.cut && !sys.w.dead && id in sys.d.calls.pending
    ensures var sys := Run(e, Opened(identity), steps);
      || (exists j :: sys.dr <= j < |sys.d.wire.sent| && sys.d.wire.sent[j].Call? && sys.d.wire.sent[j].id == id)
      || id in sys.w.jobs || (sys.w.turn.Some? && !sys.w.turn.value.answered && sys.w.turn.value.call == id)
      || (exists k :: sys.ur <= k < |sys.w.out| && sys.w.out[k].Reply? && sys.w.out[k].id == id)
  {
    hide Run;
    HeldSafety(e, identity, steps);
    var sys := Run(e, Opened(identity), steps);
    assert Held(ViewOf(sys.d), sys.w, sys.dr, sys.ur, id);
  }

  /**
    In every interleaving, the runs the worker has released are those the daemon
    counts as acknowledged, unless the daemon has still to read the success of an
    acknowledgement. So no record of the worker's table is lost for good.
   */
  lemma AcknowledgedRunsAgree(e: Env, identity: nat, steps: seq<Step>)
    requires AllHonest(steps)
    requires var s := Run(e, Opened(identity), steps).d; !s.wire.stopping && forall id :: id in s.calls.pending ==> s.calls.pending[id].verb != Ack
    ensures var sys := Run(e, Opened(identity), steps); sys.d.runs.acknowledged == sys.w.cursor.acknowledged
  {
    hide Run;
    HeldSafety(e, identity, steps);
  }
}
