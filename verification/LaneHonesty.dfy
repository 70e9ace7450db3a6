/**
  What the lane protocol asks of a product: never to answer NotRunning for a
  seeded run its worker has already counted. Exactly until the daemon reads such
  an answer is every run frame accepted; the first one written after it is not.
 */
module LaneHonesty {
  import opened Common
  import opened RunIds
  import opened SessionModel
  import opened SessionProofs
  import opened WorkerModel
  import opened LaneLink
  import opened LaneOrder
  import opened RunCalls

  /** The daemon is about to read NotRunning as the answer to a run it has written. */
  predicate Denies(sys: System) {
    && !sys.d.wire.stopping && sys.ur < |sys.w.out| && sys.w.out[sys.ur].Reply? && sys.w.out[sys.ur].response == Failed(NOT_RUNNING)
    && sys.w.out[sys.ur].id in sys.d.calls.pending && sys.d.calls.pending[sys.w.out[sys.ur].id].run.Some?
  }

  /** How much had been written when the daemon first read such an answer, if it did. */
  function Denial(e: Env, sys: System, steps: seq<Step>): Option<nat>
    decreases |steps|
  {
    if steps == [] then None else
    var n := |steps| - 1;
    var t := Run(e, sys, steps[..n]);
    if Denial(e, sys, steps[..n]).Some? then Denial(e, sys, steps[..n])
    else if steps[n] == DaemonReads && Denies(t) then Some(|t.d.wire.sent|) else None
  }

  // ---- until the daemon reads a denial ----

  /** The worker, had its product answered the run at position k with an uncertain outcome instead. */
  function Mended(w: Worker, k: Option<nat>): Worker {
    if k.Some? && k.value < |w.out| && w.out[k.value].Reply?
    then w.(out := w.out[k.value := Reply(w.out[k.value].id, Failed(INTERNAL))]) else w
  }

  /** A denial that is written and not yet read. */
  predicate Unread(sys: System, k: nat) {
    && k < |sys.w.out| && sys.w.out[k].Reply?
    && (!sys.d.wire.stopping ==>
          && sys.ur <= k && sys.w.out[k].response == Failed(NOT_RUNNING)
          && sys.w.out[k].id in sys.d.calls.pending && sys.d.calls.pending[sys.w.out[k].id].run.Some?)
  }

  /** Apart from one unread denial, the lane is as it would be with an honest product. */
  ghost predicate Agrees(sys: System, k: Option<nat>) {
    var m := sys.(w := Mended(sys.w, k));
    LinkInv(m) && RunsPlaced(m) && OrderOk(sys.d) && (k.Some? ==> Unread(sys, k.value))
  }

  lemma RunAside(w: Worker, out: seq<Up>, id: nat, r: Request)
    ensures ReceiveRun(w.(out := out), id, r) == ReceiveRun(w, id, r).(out := out) && ReceiveRun(w, id, r).out == w.out
  {
    hide ExecuteCode, Accept;
  }

  lemma OweAside(w: Worker, out: seq<Up>, id: nat, job: Job)
    ensures Owe(w.(out := out), id, job) == Owe(w, id, job).(out := out) && Owe(w, id, job).out == w.out
  {
  }

  lemma DeliverAside(w: Worker, out: seq<Up>, id: nat, r: Request)
    requires r.verb == Execute || r.verb == Deliver
    ensures ReceiveCall(w.(out := out), id, r) == ReceiveCall(w, id, r).(out := out) && ReceiveCall(w, id, r).out == w.out
  {
    hide ReceiveRun, Owe;
    RunAside(w, out, id, r);
    OweAside(w, out, id, Decided(Succeeded(None)));
    OweAside(w, out, id, Native(w.cursor.slot.Active?));
  }

  lemma AckAside(w: Worker, out: seq<Up>, id: nat, r: Request)
    requires r.verb == Ack || r.verb == Interrupt
    ensures ReceiveCall(w.(out := out), id, r) == ReceiveCall(w, id, r).(out := out) && ReceiveCall(w, id, r).out == w.out
  {
    hide Acknowledge, AckResponse, InterruptResponse;
    InterruptAside(w, out);
  }

  lemma ReadAside(w: Worker, out: seq<Up>, id: nat, r: Request)
    requires r.verb != Execute && r.verb != Deliver && r.verb != Ack && r.verb != Interrupt
    ensures ReceiveCall(w.(out := out), id, r) == ReceiveCall(w, id, r).(out := out) && ReceiveCall(w, id, r).out == w.out
  {
  }

  /** Reading does not depend on what was written. */
  lemma CallAside(w: Worker, out: seq<Up>, id: nat, r: Request)
    ensures ReceiveCall(w.(out := out), id, r) == ReceiveCall(w, id, r).(out := out) && ReceiveCall(w, id, r).out == w.out
  {
    hide ReceiveCall;
    if r.verb == Execute || r.verb == Deliver {
      DeliverAside(w, out, id, r);
    } else if r.verb == Ack || r.verb == Interrupt {
      AckAside(w, out, id, r);
    } else {
      ReadAside(w, out, id, r);
    }
  }

  lemma InterruptAside(w: Worker, out: seq<Up>)
    ensures InterruptResponse(w.(out := out)) == InterruptResponse(w)
  {
  }

  lemma ReceiveAside(w: Worker, out: seq<Up>, f: Down)
    ensures Receive(w.(out := out), f) == Receive(w, f).(out := out) && Receive(w, f).out == w.out
  {
    hide ReceiveCall, Publish;
    if f.Call? {
      CallAside(w.(lastIn := f.id), out, f.id, f.request);
    }
  }

  lemma MendedCommutes(w: Worker, k: Option<nat>, f: Down)
    ensures Mended(Receive(w, f), k) == Receive(Mended(w, k), f)
  {
    hide Receive;
    ReceiveAside(w, Mended(w, k).out, f);
  }

  lemma MendedActs(w: Worker, k: Option<nat>, step: WorkerStep)
    requires k.Some? ==> k.value < |w.out|
    ensures Enabled(w, step) <==> Enabled(Mended(w, k), step)
    ensures Enabled(w, step) ==> Mended(Advance(w, step), k) == Advance(Mended(w, k), step)
  {
    if k.Some? && w.out[k.value].Reply? && Enabled(w, step) {
      var u := Reply(w.out[k.value].id, Failed(INTERNAL));
      assert forall x: seq<Up> :: (w.out + x)[k.value := u] == w.out[k.value := u] + x;
    }
  }

  /** Pending calls stay pending through events from outside. */
  lemma PendingStays(v: View, u: View, id: nat)
    requires Moved(v, u) && id in v.pending && v.nextOut >= id
    ensures id in u.pending && u.pending[id] == v.pending[id]
  {
  }

  lemma ExternalAgrees(e: Env, sys: System, k: Option<nat>, event: Event)
    requires Agrees(sys, k) && External(event)
    ensures Agrees(Next(e, sys, Daemon(event)), k)
  {
    hide LinkInv, RunsPlaced, OrderOk, Handle, Mended, Moved, Fresh;
    var m := sys.(w := Mended(sys.w, k));
    LinkStep(e, m, Daemon(event));
    CallsStep(e, m, Daemon(event));
    LaneOnly(m);
    ExternalOrder(e, sys.d, event);
    if k.Some? && !Handle(e, sys.d, event).wire.stopping {
      LinkDaemon(m);
      ExternalMoves(e, sys.d, event);
      Numbering(sys.d);
      PendingStays(ViewOf(sys.d), ViewOf(Handle(e, sys.d, event)), sys.w.out[k.value].id);
    }
  }

  lemma LinkDaemon(sys: System)
    requires LinkInv(sys)
    ensures DaemonOk(sys.d) && Inv(sys.d) && sys.ur <= |sys.w.out|
  {
  }

  /** An answer that is no denial is read as it would be from the mended worker. */
  lemma ReadsAgrees(e: Env, sys: System, k: Option<nat>)
    requires Agrees(sys, k) && !Denies(sys) && sys.ur < |sys.w.out|
    ensures Agrees(Next(e, sys, DaemonReads), k)
  {
    hide LinkInv, RunsPlaced, OrderOk, Handle, Moved;
    var m := sys.(w := Mended(sys.w, k));
    if sys.d.wire.stopping {
      StoppedAgrees(e, sys, k);
    } else {
      assert m.w.out[m.ur] == sys.w.out[sys.ur];
      LinkStep(e, m, DaemonReads);
      CallsStep(e, m, DaemonReads);
      ReadsOrder(e, m);
      if k.Some? {
        ReadsLeaves(e, m, k.value);
      }
    }
  }

  lemma StoppedAgrees(e: Env, sys: System, k: Option<nat>)
    requires Agrees(sys, k) && sys.d.wire.stopping && sys.ur < |sys.w.out|
    ensures Agrees(Next(e, sys, DaemonReads), k)
  {
    hide DaemonOk, WorkerOk, StreamOk, OrderOk, Joint;
  }

  /** Reading one answer leaves the call of another pending, unless the session stops. */
  lemma ReadsLeaves(e: Env, sys: System, k: nat)
    requires LinkInv(sys) && !sys.d.wire.stopping && sys.ur < |sys.w.out| && sys.ur != k < |sys.w.out| && sys.w.out[k].Reply?
    requires sys.w.out[k].id in sys.d.calls.pending
    ensures var u := Handle(e, sys.d, EventOf(sys.w.out[sys.ur]));
      !u.wire.stopping ==> sys.w.out[k].id in u.calls.pending && u.calls.pending[sys.w.out[k].id] == sys.d.calls.pending[sys.w.out[k].id]
  {
    hide Joint, PairOk, ReadyOk, StreamOk, WorkerOk, TurnOk, Inv, Bounded, Moved, SettleResponse, WriteDeferredClose, Responded, Settles, RunReply,
         TurnReady, TurnAcked, TurnOver;
    var u, v, id := sys.w.out[sys.ur], ViewOf(sys.d), sys.w.out[k].id;
    LinkFacts(sys);
    Numbering(sys.d);
    if u.Reply? {
      hide MatchOk;
      ReplyExpected(v, sys.w, sys.dr, sys.ur);
      RepliesDiffer(v, sys.w, sys.dr, sys.ur, k);
      var r, m := sys.d.calls.pending[u.id], Removed(sys.d, u.id);
      ReplySettles(e, sys.d, u.id, u.response);
      var t := SettleResponse(e, m, r, u.response);
      SettledDaemon(m, t, r, u.response);
      if !t.wire.stopping {
        RespondedKeeps(ViewOf(m), ViewOf(t), r, u.response, id);
        CloseKeeps(e, t, id);
      } else {
        StopsStay(e, t);
      }
    } else {
      ReadyExpected(v, sys.w, sys.dr, sys.ur);
      ReadyDaemon(e, sys.d, u.id, u.run, u.done);
      TurnOverKeeps(v, ViewOf(TurnAcked(e, sys.d, u.id, u.done)), u.id);
      PendingStays(ViewOf(TurnAcked(e, sys.d, u.id, u.done)), ViewOf(TurnReady(e, sys.d, u.id, u.run, u.done)), id);
    }
  }

  lemma TurnOverKeeps(v: View, u: View, call: nat)
    requires TurnOver(v, u, call)
    ensures u.pending == v.pending && u.nextOut == v.nextOut
  {
  }

  lemma RepliesDiffer(v: View, w: Worker, dr: nat, ur: nat, k: nat)
    requires MatchOk(v, w, dr, ur) && ur < |w.out| && ur != k < |w.out| && w.out[k].Reply? && w.out[ur].Reply?
    ensures w.out[k].id != w.out[ur].id
  {
  }

  lemma RespondedKeeps(v: View, u: View, r: Request, response: Response, id: nat)
    requires Responded(v, u, r, response) && id in v.pending && v.nextOut >= id
    ensures id in u.pending && u.pending[id] == v.pending[id]
  {
    if Moved(v, u) {
      PendingStays(v, u, id);
    }
  }

  lemma CloseKeeps(e: Env, s: State, id: nat)
    requires Inv(s) && id in s.calls.pending
    ensures var u := WriteDeferredClose(e, s); id in u.calls.pending && u.calls.pending[id] == s.calls.pending[id]
  {
    Numbering(s);
  }

  lemma WorkerReadsAgrees(e: Env, sys: System, k: Option<nat>)
    requires Agrees(sys, k)
    ensures Agrees(Next(e, sys, WorkerReads), k)
  {
    hide LinkInv, RunsPlaced, OrderOk, Receive;
    var m := sys.(w := Mended(sys.w, k));
    LinkStep(e, m, WorkerReads);
    CallsStep(e, m, WorkerReads);
    if sys.dr < |sys.d.wire.sent| && !sys.w.dead {
      MendedCommutes(sys.w, k, sys.d.wire.sent[sys.dr]);
      ReceiveAside(sys.w, sys.w.out, sys.d.wire.sent[sys.dr]);
      assert Next(e, sys, WorkerReads).(w := Mended(Next(e, sys, WorkerReads).w, k)) == Next(e, m, WorkerReads);
    }
  }

  lemma ActsAgrees(e: Env, sys: System, k: Option<nat>, step: WorkerStep)
    requires Agrees(sys, k) && Enabled(sys.w, step) && step != AnswerTurn(Failed(NOT_RUNNING))
    ensures Agrees(Next(e, sys, WorkerActs(step)), k)
  {
    hide LinkInv, RunsPlaced, OrderOk, Advance, Enabled, Mended;
    var m := sys.(w := Mended(sys.w, k));
    LinkStep(e, m, WorkerActs(step));
    CallsStep(e, m, WorkerActs(step));
    MendedActs(sys.w, k, step);
    OutKeeps(sys.w, step);
    assert Next(e, sys, WorkerActs(step)).(w := Mended(Next(e, sys, WorkerActs(step)).w, k)) == Next(e, m, WorkerActs(step));
  }

  lemma OutKeeps(w: Worker, step: WorkerStep)
    requires Enabled(w, step)
    ensures w.out <= Advance(w, step).out
  {
  }

  /** A worker with an unread denial has a turn that is answered already. */
  lemma OneDenial(sys: System, k: nat)
    requires LinkInv(sys) && RunsPlaced(sys) && !sys.d.wire.stopping && k < |sys.w.out| && sys.w.out[k].Reply?
    requires sys.w.out[k].id in sys.d.calls.pending && sys.d.calls.pending[sys.w.out[k].id].run.Some?
    ensures sys.w.turn.Some? && sys.w.turn.value.answered
  {
    hide PairOk, StreamOk, DaemonOk, WorkerOk, TurnOk, RecordsOk, ReadyOk, InFlight, AnswerUnread;
    LinkFacts(sys);
    var v, id := ViewOf(sys.d), sys.w.out[k].id;
    assert Placed(v, sys.w, sys.dr, sys.ur, id);
    assert Replied(sys.w.out, id);
  }

  /** The denial itself: the lane is as if the outcome had been called uncertain. */
  lemma DenialAgrees(e: Env, sys: System, k: Option<nat>)
    requires Agrees(sys, k) && Enabled(sys.w, AnswerTurn(Failed(NOT_RUNNING)))
    ensures Agrees(Next(e, sys, WorkerActs(AnswerTurn(Failed(NOT_RUNNING)))), Some(|sys.w.out|))
  {
    hide LinkInv, RunsPlaced, OrderOk;
    var m, step := sys.(w := Mended(sys.w, k)), AnswerTurn(Failed(INTERNAL));
    var t := Next(e, sys, WorkerActs(AnswerTurn(Failed(NOT_RUNNING))));
    MendedActs(sys.w, k, AnswerTurn(Failed(NOT_RUNNING)));
    LinkStep(e, m, WorkerActs(step));
    CallsStep(e, m, WorkerActs(step));
    if sys.d.wire.stopping {
      Rewritten(Next(e, m, WorkerActs(step)), t.(w := Mended(t.w, Some(|sys.w.out|))));
    } else {
      if k.Some? {
        OneDenial(m, k.value);
      }
      assert t.(w := Mended(t.w, Some(|sys.w.out|))) == Next(e, m, WorkerActs(step)) by {
        assert (sys.w.out + [Reply(sys.w.turn.value.call, Failed(NOT_RUNNING))])[|sys.w.out| := Reply(sys.w.turn.value.call, Failed(INTERNAL))]
          == sys.w.out + [Reply(sys.w.turn.value.call, Failed(INTERNAL))];
      }
      TurnPending(m);
      LinkDaemon(m);
    }
  }

  lemma TurnPending(sys: System)
    requires LinkInv(sys) && !sys.d.wire.stopping && sys.w.turn.Some? && !sys.w.turn.value.answered
    ensures var id := sys.w.turn.value.call; id in sys.d.calls.pending && sys.d.calls.pending[id].run.Some?
  {
    hide PairOk, StreamOk, DaemonOk, WorkerOk, ReadyOk;
    LinkFacts(sys);
  }

  /** To a stopped session it does not matter what the worker wrote. */
  lemma Rewritten(sys: System, t: System)
    requires LinkInv(sys) && sys.d.wire.stopping && |t.w.out| == |sys.w.out| && t == sys.(w := sys.w.(out := t.w.out))
    ensures LinkInv(t) && RunsPlaced(t)
  {
    hide DaemonOk, RecordsOk, TurnOk, Joint;
    assert WorkerOk(t.w) && StreamOk(t.d.wire.sent, t.dr, t.w);
  }

  // ---- once the daemon has read one ----

  /** No run frame has been written since n, up to i. */
  predicate NoneSince(sent: seq<Down>, n: nat, i: nat)
    requires i <= |sent|
  {
    forall k :: n <= k < i ==> !RunFrame(sent[k])
  }

  /** The worker still holds the run that was denied. */
  ghost predicate Holding(sent: seq<Down>, n: nat, dr: nat, w: Worker) {
    && WorkerOk(w) && w.turn.Some?
    && forall i :: dr <= i < |sent| && NoneSince(sent, n, i) ==> sent[i].Call? && (i < n ==> !RunFrame(sent[i]))
  }

  ghost predicate Denied(sys: System, n: nat) {
    && n <= |sys.d.wire.sent| && sys.dr <= |sys.d.wire.sent|
    && (sys.d.runs.current.None? || sys.d.wire.cut || !NoneSince(sys.d.wire.sent, n, |sys.d.wire.sent|))
    && (NoneSince(sys.d.wire.sent, n, sys.dr) ==> Holding(sys.d.wire.sent, n, sys.dr, sys.w))
  }

  /** What a session without a run may write: calls, and with the first run frame it has a run again, unless its wire is cut. */
  ghost predicate Bare(s: State, u: State) {
    && s.wire.sent <= u.wire.sent && (s.wire.cut ==> u.wire.cut && u.wire.sent == s.wire.sent)
    && (s.runs.current.None? ==>
          && (forall i :: |s.wire.sent| <= i < |u.wire.sent| ==> u.wire.sent[i].Call?)
          && (u.runs.current.None? || u.wire.cut || !NoneSince(u.wire.sent, |s.wire.sent|, |u.wire.sent|)))
  }

  /** Only calls are written, and nothing about the current run changes. */
  predicate Mute(s: State, u: State) {
    && s.wire.sent <= u.wire.sent && (s.wire.cut ==> u.wire.cut && u.wire.sent == s.wire.sent)
    && (forall i :: |s.wire.sent| <= i < |u.wire.sent| ==> u.wire.sent[i].Call?) && u.runs.current == s.runs.current
  }

  lemma MuteIsBare(s: State, u: State)
    requires Mute(s, u)
    ensures Bare(s, u)
  {
  }

  lemma BareThenMute(s: State, m: State, u: State)
    requires Bare(s, m) && Mute(m, u)
    ensures Bare(s, u)
  {
    assert forall i :: 0 <= i < |m.wire.sent| ==> u.wire.sent[i] == m.wire.sent[i];
    if s.runs.current.None? && !NoneSince(m.wire.sent, |s.wire.sent|, |m.wire.sent|) {
      var k :| |s.wire.sent| <= k < |m.wire.sent| && RunFrame(m.wire.sent[k]);
      assert RunFrame(u.wire.sent[k]);
    }
  }

  lemma BareTwice(s: State, m: State, u: State)
    requires Bare(s, m) && Bare(m, u) && (m.runs.current.Some? ==> u == m)
    ensures Bare(s, u)
  {
    assert forall i :: 0 <= i < |m.wire.sent| ==> u.wire.sent[i] == m.wire.sent[i];
    if s.runs.current.None? && !NoneSince(u.wire.sent, |m.wire.sent|, |u.wire.sent|) {
      var k :| |m.wire.sent| <= k < |u.wire.sent| && RunFrame(u.wire.sent[k]);
    }
  }

  lemma WriteBare(e: Env, s: State, r: Request)
    ensures Bare(s, Write(e, s, r))
  {
  }

  lemma LaunchBare(e: Env, s: State, r: Request)
    ensures Bare(s, Launch(e, s, r))
  {
    var u := Launch(e, s, r);
    if u.runs.current.Some? && !u.wire.cut {
      assert RunFrame(u.wire.sent[|s.wire.sent|]);
    }
  }

  lemma CloseMute(e: Env, s: State)
    ensures Mute(s, WriteDeferredClose(e, s))
  {
  }

  lemma IssueBare(e: Env, s: State, r0: Request)
    ensures Bare(s, Issue(e, s, r0))
  {
    hide Bare, Launch, Write, WriteDeferredClose, GivenUp, Refusal;
    var r, u := Normalized(r0), Issue(e, s, r0);
    if Refusal(s, r0) != 0 {
      MuteIsBare(s, u);
    } else if r.verb == Close {
      CloseTakenBare(e, s, r);
    } else if r.verb == Execute || Seeds(s, r) {
      LaunchBare(e, s, r);
    } else {
      WriteBare(e, s, r);
    }
  }

  lemma CloseTakenBare(e: Env, s: State, r: Request)
    ensures Bare(s, BeginClose(e, s, r))
  {
    hide Bare, WriteDeferredClose, GivenUp;
    CloseMute(e, CloseTaken(s, r));
    MuteIsBare(s, BeginClose(e, s, r));
  }

  lemma {:induction false} StartDeferredBare(e: Env, s: State)
    ensures Bare(s, StartDeferred(e, s))
    decreases |s.calls.deferred|
  {
    hide Bare, Issue;
    if s.runs.current.None? && s.calls.deferred != [] {
      var m := Issue(e, Popped(s), s.calls.deferred[0]);
      IssueBare(e, Popped(s), s.calls.deferred[0]);
      PoppedBare(s, m);
      StartDeferredBare(e, m);
      BareTwice(s, m, StartDeferred(e, m));
    } else {
      MuteIsBare(s, s);
    }
  }

  lemma PoppedBare(s: State, m: State)
    requires s.calls.deferred != [] && Bare(Popped(s), m)
    ensures Bare(s, m)
  {
  }

  lemma RetainBare(e: Env, s: State, r: Request)
    ensures Bare(s, Retain(e, s, r))
  {
    hide Bare, Issue, HasRunCapacity;
    if s.runs.current.None? {
      IssueBare(e, s, r);
    } else {
      MuteIsBare(s, Retain(e, s, r));
    }
  }

  /** A failed call may give its run back; the rest is up to the queue. */
  lemma FailBare(e: Env, s: State, r: Request, code: int)
    ensures Bare(s, FailResponse(e, s, r, code))
  {
    hide StartDeferred, Noted, NoneSince;
    var s1 := if r.verb == Execute || code != INTERNAL then RefuseRun(s, r.run) else s;
    var m := AnswerRouted(s1, r, Refused(code));
    StartDeferredBare(e, m);
  }

  lemma SettleBare(e: Env, s: State, r: Request, response: Response)
    ensures Bare(s, SettleResponse(e, s, r, response))
  {
    hide Bare, Issue, Retain, FailResponse, Noted, RecordAcknowledgment;
    var u := SettleResponse(e, s, r, response);
    RetainBare(e, s, r);
    if response.Failed? {
      FailBare(e, s, r, response.code);
    } else if response.Succeeded? && response.ref.Some? {
      IssueBare(e, s, Collector(r, response.ref.value));
    }
    AckMute(s, r);
    if Mute(s, u) {
      MuteIsBare(s, u);
    }
  }

  lemma AckMute(s: State, r: Request)
    ensures Mute(s, AnswerRouted(s.(runs := RecordAcknowledgment(s.runs, r.ref)), r, Done))
  {
  }

  lemma ReceiveBare(e: Env, s: State, id: nat, response: Response)
    ensures Bare(s, ReceiveResponse(e, s, id, response))
  {
    hide SettleResponse, WriteDeferredClose, NoneSince;
    if id in s.calls.pending {
      var m := Removed(s, id);
      SettleBare(e, m, s.calls.pending[id], response);
      var t := SettleResponse(e, m, s.calls.pending[id], response);
      CloseMute(e, t);
      BareThenMute(s, t, WriteDeferredClose(e, t));
    }
  }

  lemma ReadyBare(e: Env, s: State, call: nat, id: RunId, done: bool)
    ensures Bare(s, TurnReady(e, s, call, id, done))
  {
    hide StartDeferred, NoneSince;
    StartDeferredBare(e, TurnAcked(e, s, call, done));
  }

  lemma HandleBare(e: Env, s: State, event: Event)
    ensures Bare(s, Handle(e, s, event))
  {
    hide Bare, Issue, ReceiveResponse, TurnReady, BeginClose, GivenUp, Settled, Noted;
    match event
    case Routed(r) => IssueBare(e, s, r); MuteIsBare(s, AnswerRouted(s, r, Refused(NOT_CONNECTED)));
    case Answered(id, response) => ReceiveBare(e, s, id, response); MuteIsBare(s, s);
    case Ready(call, id, done) => ReadyBare(e, s, call, id, done); MuteIsBare(s, s);
    case Disconnected => MuteIsBare(s, Handle(e, s, event));
    case Retire(ticket) =>
      CloseTakenBare(e, s, Request(ticket, s.entry.identity, Close, None, None, false, false, false, false));
      MuteIsBare(s, s);
    case CloseExpired => MuteIsBare(s, Handle(e, s, event));
    case Renamed(identity) => MuteIsBare(s, Handle(e, s, event));
    case Tick(now) => MuteIsBare(s, Handle(e, s, event));
  }

  // ---- the denied run keeps its slot ----

  lemma DaemonDenied(sys: System, u: State, n: nat)
    requires Denied(sys, n) && Bare(sys.d, u)
    ensures Denied(sys.(d := u), n)
  {
    hide WorkerOk;
    var was, sent := sys.d.wire.sent, u.wire.sent;
    assert forall i :: 0 <= i < |was| ==> sent[i] == was[i];
    assert forall i :: 0 <= i <= |was| ==> (NoneSince(sent, n, i) <==> NoneSince(was, n, i));
    if !NoneSince(was, n, |was|) {
      SinceGrows(was, sent, n);
    }
    assert NoneSince(sent, n, |sent|) ==> NoneSince(sent, |was|, |sent|);
    forall i | sys.dr <= i < |sent| && NoneSince(sent, n, i) && NoneSince(sent, n, sys.dr)
      ensures sent[i].Call? && (i < n ==> !RunFrame(sent[i]))
    {
      if i >= |was| {
        assert NoneSince(was, n, |was|);
      }
    }
  }

  lemma SinceGrows(sent: seq<Down>, more: seq<Down>, n: nat)
    requires sent <= more && !NoneSince(sent, n, |sent|)
    ensures !NoneSince(more, n, |more|)
  {
    var k :| n <= k < |sent| && RunFrame(sent[k]);
    assert RunFrame(more[k]);
  }

  lemma ClosingHolds(w: Worker)
    requires WorkerOk(w)
    ensures WorkerOk(w.(cursor := CloseSlot(w.cursor)))
  {
  }

  lemma CallHolds(w: Worker, id: nat, r: Request)
    requires WorkerOk(w) && r.run.None?
    ensures WorkerOk(ReceiveCall(w, id, r)) && ReceiveCall(w, id, r).turn == w.turn
  {
    hide RecordsOk, TurnOk, CloseSlot, Acknowledge, AckResponse, InterruptResponse;
    ClosingHolds(w);
    AcknowledgeOk(w.cursor, w.turn, if r.ref.Some? then r.ref.value else Malformed);
  }

  /** A call without a run leaves the turn alone. */
  lemma ReadHolds(w: Worker, f: Down)
    requires WorkerOk(w) && f.Call? && f.request.run.None?
    ensures WorkerOk(Receive(w, f)) && Receive(w, f).turn == w.turn
  {
    hide RecordsOk, TurnOk, ReceiveCall;
    CallHolds(w.(lastIn := f.id), f.id, f.request);
  }

  lemma WorkerReadsDenied(sys: System, n: nat)
    requires Denied(sys, n) && sys.dr < |sys.d.wire.sent|
    ensures Denied(sys.(w := Receive(sys.w, sys.d.wire.sent[sys.dr]), dr := sys.dr + 1), n)
  {
    hide WorkerOk, Receive;
    var sent, f := sys.d.wire.sent, sys.d.wire.sent[sys.dr];
    if NoneSince(sent, n, sys.dr + 1) {
      assert NoneSince(sent, n, sys.dr);
      assert !RunFrame(f);
      ReadHolds(sys.w, f);
    }
  }

  lemma ActsDenied(sys: System, step: WorkerStep, n: nat)
    requires Denied(sys, n) && Enabled(sys.w, step)
    ensures Denied(sys.(w := Advance(sys.w, step)), n)
  {
    hide WorkerOk, Advance, NoneSince;
    if NoneSince(sys.d.wire.sent, n, sys.dr) {
      TurnStays(sys.w, step);
    }
  }

  lemma TurnStays(w: Worker, step: WorkerStep)
    requires WorkerOk(w) && w.turn.Some? && Enabled(w, step)
    ensures WorkerOk(Advance(w, step)) && Advance(w, step).turn.Some?
  {
    AdvanceOk(w, step);
  }

  lemma DeniedStep(e: Env, sys: System, step: Step, n: nat)
    requires Denied(sys, n)
    ensures Denied(Next(e, sys, step), n)
  {
    hide Holding, NoneSince, Handle, Receive, Advance, Enabled;
    match step
    case Daemon(event) => HandleBare(e, sys.d, event); if External(event) { DaemonDenied(sys, Handle(e, sys.d, event), n); }
    case DaemonReads =>
      if sys.ur < |sys.w.out| {
        HandleBare(e, sys.d, EventOf(sys.w.out[sys.ur]));
        DaemonDenied(sys, Handle(e, sys.d, EventOf(sys.w.out[sys.ur])), n);
      }
    case WorkerReads => if sys.dr < |sys.d.wire.sent| && !sys.w.dead { WorkerReadsDenied(sys, n); }
    case WorkerActs(s) => if Enabled(sys.w, s) { ActsDenied(sys, s, n); }
  }

  // ---- the answer is read ----

  /** The session once it has undone the run of a refused seeded delivery. */
  function Undone(s: State, id: nat): State
    requires id in s.calls.pending
  {
    AnswerRouted(RefuseRun(Removed(s, id), s.calls.pending[id].run), s.calls.pending[id], Refused(NOT_RUNNING))
  }

  lemma RefusedSettles(e: Env, s: State, id: nat)
    requires id in s.calls.pending && s.calls.pending[id].verb == Deliver && s.calls.pending[id].run.Some?
    requires s.calls.pending[id].destination == s.entry.identity && s.entry.attached
    ensures ReceiveResponse(e, s, id, Failed(NOT_RUNNING)) == StartDeferred(e, Undone(s, id))
  {
    hide StartDeferred, RefuseRun, Noted;
  }

  /** A denied run is the daemon's current one, a delivery, and the worker's turn is on it. */
  lemma DeniedIsCurrent(sys: System, k: Option<nat>)
    requires Agrees(sys, k) && Denies(sys)
    ensures k == Some(sys.ur)
    ensures var r := sys.d.calls.pending[sys.w.out[sys.ur].id];
      && r.verb == Deliver && r.run == sys.d.runs.current && r.destination == sys.d.entry.identity && sys.d.entry.attached
    ensures WorkerOk(sys.w) && sys.w.turn.Some? && sys.dr <= |sys.d.wire.sent|
    ensures NoRun(sys.d.wire.sent, sys.dr) && NoAck(sys.d.wire.sent, sys.dr)
  {
    hide StreamOk, RecordsOk, TurnOk, ReadyOk, InFlight, AnswerUnread, OrderOk, RunsOk, SentOk, NoRun, NoAck, NoReady, RunReply, Issued;
    var m := sys.(w := Mended(sys.w, k));
    LinkFacts(m);
    DenialPlaced(m, sys.ur);
    var id := sys.w.out[sys.ur].id;
    AddressedAt(sys.d, id);
    assert k == Some(sys.ur) || m.w.out[m.ur] == sys.w.out[sys.ur];
    DenialAnswer(m);
  }

  /** The call of a run that was answered is with the worker's turn. */
  lemma DenialPlaced(sys: System, k: nat)
    requires LinkInv(sys) && RunsPlaced(sys) && !sys.d.wire.stopping && k < |sys.w.out| && sys.w.out[k].Reply?
    requires sys.w.out[k].id in sys.d.calls.pending && sys.d.calls.pending[sys.w.out[k].id].run.Some?
    ensures sys.d.calls.pending[sys.w.out[k].id].run == sys.d.runs.current && sys.d.runs.sequence == sys.w.cursor.last
  {
    hide PairOk, StreamOk, DaemonOk, WorkerOk, TurnOk, RecordsOk, ReadyOk, InFlight, AnswerUnread;
    LinkFacts(sys);
    assert Placed(ViewOf(sys.d), sys.w, sys.dr, sys.ur, sys.w.out[k].id);
  }

  lemma DenialAnswer(sys: System)
    requires LinkInv(sys) && !sys.d.wire.stopping && sys.ur < |sys.w.out| && sys.w.out[sys.ur].Reply? && sys.w.out[sys.ur].response.Failed?
    requires sys.w.out[sys.ur].id in sys.d.calls.pending && sys.d.calls.pending[sys.w.out[sys.ur].id].run.Some?
    ensures sys.d.calls.pending[sys.w.out[sys.ur].id].verb == Deliver && sys.w.out[sys.ur].response == Failed(INTERNAL)
    ensures sys.d.entry.attached
  {
    hide PairOk, StreamOk, WorkerOk, TurnOk, RecordsOk, ReadyOk, RunsOk, SentOk;
    LinkFacts(sys);
    ReplyExpected(ViewOf(sys.d), sys.w, sys.dr, sys.ur);
    assert Issued(sys.d.calls.pending[sys.w.out[sys.ur].id]);
  }

  lemma DenialRead(e: Env, sys: System, k: Option<nat>)
    requires Agrees(sys, k) && Denies(sys)
    ensures Denied(Next(e, sys, DaemonReads), |sys.d.wire.sent|)
  {
    DeniedIsCurrent(sys, k);
    hide Agrees, WorkerOk, StartDeferred, ReceiveResponse, Undone, Bare, Denied, NoRun, NoAck, Next;
    DenialStep(e, sys);
    var s, id, n := sys.d, sys.w.out[sys.ur].id, |sys.d.wire.sent|;
    RefusedSettles(e, s, id);
    UndoneShape(s, id);
    UndoneDenied(sys, Undone(s, id));
    StartDeferredBare(e, Undone(s, id));
    DaemonDenied(sys.(d := Undone(s, id), ur := sys.ur + 1), StartDeferred(e, Undone(s, id)), n);
  }

  lemma DenialStep(e: Env, sys: System)
    requires Denies(sys)
    ensures Next(e, sys, DaemonReads) == sys.(d := ReceiveResponse(e, sys.d, sys.w.out[sys.ur].id, Failed(NOT_RUNNING)), ur := sys.ur + 1)
  {
    hide ReceiveResponse;
  }

  lemma UndoneShape(s: State, id: nat)
    requires id in s.calls.pending && s.calls.pending[id].run == s.runs.current && s.runs.current.Some?
    ensures Undone(s, id).wire == s.wire && Undone(s, id).runs.current.None?
  {
  }

  lemma UndoneDenied(sys: System, u: State)
    requires u.wire == sys.d.wire && u.runs.current.None? && WorkerOk(sys.w) && sys.w.turn.Some? && sys.dr <= |sys.d.wire.sent|
    requires NoRun(sys.d.wire.sent, sys.dr) && NoAck(sys.d.wire.sent, sys.dr)
    ensures Denied(sys.(d := u, ur := sys.ur + 1), |sys.d.wire.sent|)
  {
    hide WorkerOk;
  }

  // ---- every interleaving ----

  ghost predicate Watched(sys: System, mark: Option<nat>) {
    if mark.Some? then Denied(sys, mark.value) else exists k :: Agrees(sys, k)
  }

  lemma AgreesStep(e: Env, sys: System, step: Step, k: Option<nat>)
    requires Agrees(sys, k) && !(step == DaemonReads && Denies(sys))
    ensures Watched(Next(e, sys, step), None)
  {
    hide Agrees, Enabled, Advance, Receive, Handle, Denies;
    var t := Next(e, sys, step);
    match step
    case Daemon(event) =>
      if External(event) { ExternalAgrees(e, sys, k, event); }
      assert Agrees(t, k);
    case DaemonReads =>
      if sys.ur < |sys.w.out| { ReadsAgrees(e, sys, k); }
      assert Agrees(t, k);
    case WorkerReads =>
      WorkerReadsAgrees(e, sys, k);
      assert Agrees(t, k);
    case WorkerActs(s) =>
      if !Enabled(sys.w, s) {
        assert Agrees(t, k);
      } else if s == AnswerTurn(Failed(NOT_RUNNING)) {
        DenialAgrees(e, sys, k);
        assert Agrees(t, Some(|sys.w.out|));
      } else {
        ActsAgrees(e, sys, k, s);
        assert Agrees(t, k);
      }
  }

  lemma StartAgrees(identity: nat)
    ensures Agrees(Opened(identity), None)
  {
    StartInv(identity);
    StartOrder(identity);
  }

  lemma {:induction false} EveryStepWatched(e: Env, identity: nat, steps: seq<Step>)
    ensures Watched(Run(e, Opened(identity), steps), Denial(e, Opened(identity), steps))
    decreases |steps|
  {
    hide Agrees, Denied, Next, Denies, Opened;
    if steps == [] {
      StartAgrees(identity);
    } else {
      var n := |steps| - 1;
      EveryStepWatched(e, identity, steps[..n]);
      var sys, mark := Run(e, Opened(identity), steps[..n]), Denial(e, Opened(identity), steps[..n]);
      if mark.Some? {
        DeniedStep(e, sys, steps[n], mark.value);
      } else {
        var k :| Agrees(sys, k);
        if steps[n] == DaemonReads && Denies(sys) {
          DenialRead(e, sys, k);
        } else {
          AgreesStep(e, sys, steps[n], k);
        }
      }
    }
  }

  /**
    In every interleaving, with any product: the run frame the worker reads next
    is accepted if and only if the daemon has not yet read NotRunning as the
    answer to a run. If it has, the first run frame written since reuses a number
    whose slot is still held, and is refused as busy.
   */
  lemma AcceptedUnlessDenied(e: Env, identity: nat, steps: seq<Step>)
    requires var sys := Run(e, Opened(identity), steps); sys.dr < |sys.d.wire.sent| && RunFrame(sys.d.wire.sent[sys.dr])
    requires Denial(e, Opened(identity), steps).Some? ==>
      NoneSince(Run(e, Opened(identity), steps).d.wire.sent, Denial(e, Opened(identity), steps).value, Run(e, Opened(identity), steps).dr)
    ensures var sys := Run(e, Opened(identity), steps);
      ExecuteCode(sys.w.cursor, RunOf(sys.d.wire.sent[sys.dr].request)) == if Denial(e, Opened(identity), steps).Some? then BUSY else 0
  {
    EveryStepWatched(e, identity, steps);
    var sys, mark := Run(e, Opened(identity), steps), Denial(e, Opened(identity), steps);
    hide Run, Denial;
    if mark.Some? {
      hide NoneSince;
      HeldIsBusy(sys.w, RunOf(sys.d.wire.sent[sys.dr].request));
    } else {
      var k :| Agrees(sys, k);
      MendedAccepts(sys, k);
    }
  }

  lemma HeldIsBusy(w: Worker, ref: RunText)
    requires WorkerOk(w) && w.turn.Some?
    ensures ExecuteCode(w.cursor, ref) == BUSY
  {
  }

  lemma MendedAccepts(sys: System, k: Option<nat>)
    requires Agrees(sys, k) && sys.dr < |sys.d.wire.sent| && RunFrame(sys.d.wire.sent[sys.dr])
    ensures ExecuteCode(sys.w.cursor, RunOf(sys.d.wire.sent[sys.dr].request)) == 0
  {
    hide Joint, StreamOk, WorkerOk, SentOk, CallsOk, RunsOk, OrderOk, RunsPlaced, ExecuteCode;
    RunAccepted(sys.d.wire.sent, sys.dr, Mended(sys.w, k), sys.d.calls.nextOut, sys.d.calls.closeCall.Some?);
  }

  // ---- a concrete run ----

  /** Two deliveries to an idle lane, the first answered NotRunning after its run was counted. */
  function Dishonest(first: Request, second: Request): seq<Step> {
    [Daemon(Routed(first)), WorkerReads, WorkerActs(AnswerTurn(Failed(NOT_RUNNING))), DaemonReads, Daemon(Routed(second))]
  }

  predicate Ordinary(r: Request, identity: nat) { Fresh(r) && r.verb == Deliver && r.destination == identity }

  /** A lane with nothing under way, its wire in order. */
  predicate Idle(s: State) {
    && s.entry == Lane(s.entry.identity).entry && s.runs.current.None? && s.runs.sequence == 0 == s.runs.acknowledged
    && s.calls.pending == map[] && s.calls.deferred == [] && s.calls.closeCall.None? && !s.wire.stopping && !s.wire.cut
  }

  /** The run that r has started on an idle lane. */
  predicate Seeded(e: Env, s: State, u: State, r: Request) {
    var id, n := NextRun(e, s.runs), s.calls.nextOut + 1;
    && u.runs.current == Some(id) && u.runs.sequence == 1 && u.runs.generation == Some(id.generation) && u.runs.acknowledged == 0
    && u.calls == s.calls.(nextOut := n, pending := map[n := r.(run := Some(id))])
    && u.wire == Send(e, s.wire, Call(n, r.(run := Some(id)))) && u.entry == s.entry.(running := true)
  }

  lemma IdleAdmits(s: State, r: Request)
    requires Idle(s) && Ordinary(r, s.entry.identity)
    ensures Refusal(s, r) == 0 && Seeds(s, r) && Normalized(r) == r
  {
  }

  lemma IdleLaunch(e: Env, s: State, r: Request)
    requires Idle(s) && r.verb == Deliver && e.room(s.wire.attempts) && e.fits(s.calls.nextOut + 1)
    ensures Seeded(e, s, Launch(e, s, r), r)
  {
  }

  lemma IdleDelivery(e: Env, s: State, r: Request)
    requires Idle(s) && Ordinary(r, s.entry.identity) && e.room(s.wire.attempts) && e.fits(s.calls.nextOut + 1)
    ensures Seeded(e, s, Handle(e, s, Routed(r)), r)
  {
    hide Launch, Refusal, Seeded;
    IdleAdmits(s, r);
    IdleLaunch(e, s, r);
  }

  /** A product that breaks the rule: the next run frame finds the run slot taken and is refused. */
  lemma DishonestProductIsRefused(e: Env, identity: nat, first: Request, second: Request)
    requires (forall n: nat :: e.room(n) && e.fits(n)) && Ordinary(first, identity) && Ordinary(second, identity)
    ensures var sys := Run(e, Opened(identity), Dishonest(first, second));
      && sys.dr < |sys.d.wire.sent| && RunFrame(sys.d.wire.sent[sys.dr])
      && ExecuteCode(sys.w.cursor, RunOf(sys.d.wire.sent[sys.dr].request)) == BUSY
  {
    hide Handle;
    var steps, s0 := Dishonest(first, second), Opened(identity);
    Prefixes(e, s0, steps);
    hide Run;
    IdleDelivery(e, s0.d, first);
    var s1 := Next(e, s0, steps[0]);
    var s3 := Next(e, Next(e, s1, steps[1]), steps[2]);
    DishonestWorker(e, s1, first.(run := Some(NextRun(e, s0.d.runs))));
    DishonestRead(e, s1.d, first);
    var s4 := Next(e, s3, steps[3]);
    IdleDelivery(e, s4.d, second);
  }

  /** The worker counts the run and its product then denies it. */
  lemma DishonestWorker(e: Env, sys: System, r: Request)
    requires sys.w == NewWorker() && sys.dr == 0 && sys.ur == 0 && sys.d.wire.sent == [Call(1, r)] && r.verb == Deliver && r.run.Some?
    requires r.run.value.sequence == 1
    ensures var u := Next(e, Next(e, sys, WorkerReads), WorkerActs(AnswerTurn(Failed(NOT_RUNNING))));
      u.d == sys.d && u.dr == 1 && u.ur == 0 && u.w.out == [Reply(1, Failed(NOT_RUNNING))] && u.w.cursor.slot == Active(r.run.value)
  {
  }

  lemma DishonestRead(e: Env, s: State, r: Request)
    requires s.calls.pending == map[1 := r.(run := s.runs.current)] && r.verb == Deliver && r.destination == s.entry.identity
    requires s.calls.deferred == [] && s.calls.closeCall.None? && !s.wire.stopping && s.runs.current.Some? && s.runs.sequence == 1
    requires s.entry == Lane(s.entry.identity).entry.(running := true)
    ensures var u := Handle(e, s, Event.Answered(1, Failed(NOT_RUNNING)));
      && u.runs.current.None? && u.runs.sequence == 0 && u.runs.acknowledged == s.runs.acknowledged
      && u.calls == s.calls.(pending := map[]) && u.wire == s.wire && u.entry == Lane(s.entry.identity).entry
      && u.runs.generation == s.runs.generation
  {
  }

  lemma Prefixes(e: Env, s: System, steps: seq<Step>)
    requires |steps| == 5
    ensures Run(e, s, steps) == Next(e, Next(e, Next(e, Next(e, Next(e, s, steps[0]), steps[1]), steps[2]), steps[3]), steps[4])
  {
    hide Next;
    assert steps[..4][..3] == steps[..3] && steps[..3][..2] == steps[..2] && steps[..2][..1] == steps[..1] && steps[..1][..0] == [];
    assert Run(e, s, steps[..1]) == Next(e, s, steps[0]);
    assert Run(e, s, steps[..2]) == Next(e, Run(e, s, steps[..1]), steps[1]);
    assert Run(e, s, steps[..3]) == Next(e, Run(e, s, steps[..2]), steps[2]);
    assert Run(e, s, steps[..4]) == Next(e, Run(e, s, steps[..3]), steps[3]);
  }
}
