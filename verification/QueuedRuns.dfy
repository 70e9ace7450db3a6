/**
  What becomes of deliveries answered queued_for_next_turn. Each one taken from
  the queue starts exactly one run, in the order of the promises, unless its own
  body fits no frame, the wire is lost, or a close gives it up; none is ever
  refused for want of capacity.
 */
module QueuedRuns {
  import opened Common
  import opened RunIds
  import opened SessionModel
  import opened SessionProofs
  import opened SessionLedger
  import opened WorkerModel
  import opened LaneLink

  /** The end of a promise: its run was written, its body fits no frame, the wire was lost, or a close came first. */
  datatype Fate = Started | TooBig(call: nat) | Lost | GivenBack

  /** What happens to the head of the queue when its turn has come: its call number and the wire decide. */
  function HeadFate(e: Env, s: State): Fate {
    if !e.fits(s.calls.nextOut + 1) then TooBig(s.calls.nextOut + 1)
    else if s.wire.cut || !e.room(s.wire.attempts) then Lost else Started
  }

  /** The fates of the deliveries that draining the queue takes, in order. */
  function DrainFates(e: Env, s: State): seq<Fate>
    decreases |s.calls.deferred|
  {
    if s.runs.current.Some? || s.calls.deferred == [] then [] else
    [HeadFate(e, s)] + DrainFates(e, Issue(e, Popped(s), s.calls.deferred[0]))
  }

  function All(fate: Fate, n: nat): seq<Fate> { seq(n, _ => fate) }

  /** A failed call may free the run it reserved, and the queue is drained then. */
  function ResponseFates(e: Env, s: State, r: Request, response: Response): seq<Fate> {
    if r.destination != s.entry.identity || !s.entry.attached || r.verb == Close || Retained(s, r, response) || !response.Failed? then []
    else
      var s1 := if r.verb == Execute || response.code != INTERNAL then RefuseRun(s, r.run) else s;
      DrainFates(e, AnswerRouted(s1, r, Refused(response.code)))
  }

  /** The fates of the deliveries one event takes from the queue. */
  function EventFates(e: Env, s: State, event: Event): seq<Fate> {
    match event
    case Routed(r) =>
      if s.wire.stopping || r.destination != s.entry.identity || s.entry.launching || Refusal(s, r) != 0 || r.verb != Close
      then [] else All(GivenBack, |s.calls.deferred|)
    case Answered(id, response) =>
      if s.wire.stopping || id !in s.calls.pending then [] else ResponseFates(e, Removed(s, id), s.calls.pending[id], response)
    case Ready(call, id, done) =>
      if s.wire.stopping || !ReadyMatches(s, id) then [] else DrainFates(e, TurnAcked(e, s, call, done))
    case Disconnected => if s.wire.closed then [] else All(Lost, |s.calls.deferred|)
    case Retire(_) =>
      if s.wire.stopping || s.calls.closeCall.Some? || s.entry.launching || s.entry.peer
      then [] else All(GivenBack, |s.calls.deferred|)
    case _ => []
  }

  function StepFates(e: Env, sys: System, step: Step): seq<Fate> {
    match step
    case Daemon(event) => if External(event) then EventFates(e, sys.d, event) else []
    case DaemonReads => if sys.ur < |sys.w.out| then EventFates(e, sys.d, EventOf(sys.w.out[sys.ur])) else []
    case _ => []
  }

  /** The fates of all deliveries a run takes from the queue, in the order in which they are taken. */
  function Fates(e: Env, sys: System, steps: seq<Step>): seq<Fate>
    decreases |steps|
  {
    if steps == [] then [] else
    var n := |steps| - 1;
    Fates(e, sys, steps[..n]) + StepFates(e, Run(e, sys, steps[..n]), steps[n])
  }

  /** The tickets of the runs on the wire that come from the queue, in order. */
  function FromQueue(sent: seq<Down>): seq<nat> {
    if sent == [] then [] else
    var f := sent[|sent| - 1];
    FromQueue(sent[..|sent| - 1]) + if f.Call? && f.request.scheduled then [f.request.ticket] else []
  }

  /** The tickets whose promise ended in a run, in order. */
  function Begun(tickets: seq<nat>, fates: seq<Fate>): seq<nat>
    requires |tickets| == |fates|
  {
    if tickets == [] then [] else
    var n := |tickets| - 1;
    Begun(tickets[..n], fates[..n]) + if fates[n] == Started then [tickets[n]] else []
  }

  predicate NotBusy(notes: map<nat, seq<Answer>>) { forall t :: t in notes ==> Refused(BUSY) !in notes[t] }

  ghost predicate Tracked(s: State, fates: seq<Fate>) {
    && |fates| == |s.books.popped| && FromQueue(s.wire.sent) == Begun(s.books.popped, fates)
    && s.books.queued == s.books.popped + TicketsOf(s.calls.deferred)
    && (s.calls.closeCall.None? ==> NotBusy(s.books.notes) && GivenBack !in fates)
    && (!s.wire.cut ==> Lost !in fates)
  }

  // ---- steps that take nothing from the queue ----

  lemma FromQueueMore(sent: seq<Down>, f: Down)
    ensures FromQueue(sent + [f]) == FromQueue(sent) + if f.Call? && f.request.scheduled then [f.request.ticket] else []
  {
    assert (sent + [f])[..|sent|] == sent;
  }

  lemma BegunMore(tickets: seq<nat>, fates: seq<Fate>, t: nat, fate: Fate)
    requires |tickets| == |fates|
    ensures Begun(tickets + [t], fates + [fate]) == Begun(tickets, fates) + if fate == Started then [t] else []
  {
    assert (tickets + [t])[..|tickets|] == tickets && (fates + [fate])[..|fates|] == fates;
  }

  lemma {:induction false} BegunNone(tickets: seq<nat>, fates: seq<Fate>, more: seq<nat>, fate: Fate)
    requires |tickets| == |fates| && fate != Started
    ensures Begun(tickets + more, fates + All(fate, |more|)) == Begun(tickets, fates)
    decreases |more|
  {
    if more == [] {
      assert tickets + more == tickets && fates + All(fate, 0) == fates;
    } else {
      var n := |more| - 1;
      BegunNone(tickets, fates, more[..n], fate);
      assert tickets + more == (tickets + more[..n]) + [more[n]];
      assert fates + All(fate, |more|) == (fates + All(fate, n)) + [fate];
      BegunMore(tickets + more[..n], fates + All(fate, n), more[n], fate);
    }
  }

  /** Nothing is taken from the queue, and nothing from it is written. */
  ghost predicate Aside(s: State, u: State) {
    && FromQueue(u.wire.sent) == FromQueue(s.wire.sent) && u.books.popped == s.books.popped && u.books.queued == s.books.queued
    && u.calls.deferred == s.calls.deferred && (NotBusy(s.books.notes) ==> NotBusy(u.books.notes))
    && (s.calls.closeCall.Some? ==> u.calls.closeCall.Some?) && (s.wire.cut ==> u.wire.cut)
  }

  lemma AsideKeeps(s: State, u: State, fates: seq<Fate>)
    requires Tracked(s, fates) && Aside(s, u)
    ensures Tracked(u, fates)
  {
    hide NotBusy, FromQueue, Begun;
  }

  lemma AnswerAside(s: State, r: Request, a: Answer)
    requires r.scheduled ==> a != Refused(BUSY)
    ensures Aside(s, AnswerRouted(s, r, a))
  {
    hide FromQueue;
  }

  lemma RefuseAside(s: State, id: Option<RunId>)
    ensures Aside(s, RefuseRun(s, id))
  {
    hide FromQueue, NotBusy;
  }

  lemma AsideTwice(s: State, m: State, u: State)
    requires Aside(s, m) && Aside(m, u)
    ensures Aside(s, u)
  {
    hide FromQueue, NotBusy;
  }

  lemma WriteAside(e: Env, s: State, r: Request)
    requires !r.scheduled
    ensures Aside(s, Write(e, s, r))
  {
    hide FromQueue, NotBusy, RefuseRun;
    var id := s.calls.nextOut + 1;
    FromQueueMore(s.wire.sent, Call(id, r));
    var s1 := s.(calls := s.calls.(nextOut := id));
    var s2 := s1.(wire := Send(e, s.wire, Call(id, r)));
    RefuseAside(s1, r.run);
    RefuseAside(s2, r.run);
    AnswerAside(RefuseRun(s1, r.run), r, Refused(NOT_CONNECTED));
    AnswerAside(RefuseRun(s2, r.run), r, Refused(NOT_CONNECTED));
  }

  lemma LaunchAside(e: Env, s: State, r: Request)
    requires !r.scheduled
    ensures Aside(s, Launch(e, s, r))
  {
    hide FromQueue, NotBusy, Write;
    var s1 := ReserveRun(e, s);
    var s2 := s1.(runs := s1.runs.(fromTrace := r.verb == Deliver && r.traceCopy,
                                   fromCompletion := r.verb == Deliver && r.completion));
    WriteAside(e, s2, r.(run := s1.runs.current));
    AsideTwice(s, s2, Launch(e, s, r));
  }

  lemma CloseAside(e: Env, s: State)
    requires s.calls.closeCall.Some? ==> !s.calls.closeCall.value.scheduled
    ensures Aside(s, WriteDeferredClose(e, s))
  {
    hide FromQueue, NotBusy;
    if s.calls.closeCall.Some? {
      FromQueueMore(s.wire.sent, Call(s.calls.nextOut + 1, s.calls.closeCall.value));
    }
  }

  // ---- a close gives the queue up ----

  lemma {:induction false} GivenUpBooks(b: Books, rs: seq<Request>, code: int)
    ensures var g := GivenUp(b, rs, code);
      && g.popped == b.popped + TicketsOf(rs) && g.queued == b.queued
      && (code != BUSY && NotBusy(b.notes) ==> NotBusy(g.notes))
    decreases |rs|
  {
    if rs == [] {
      assert TicketsOf(rs) == [];
    } else {
      var c := Noted(b, rs[0], Refused(code)).(popped := b.popped + [rs[0].ticket]);
      GivenUpBooks(c, rs[1..], code);
      assert TicketsOf(rs) == [rs[0].ticket] + TicketsOf(rs[1..]);
    }
  }

  /** The whole queue is given up, by a close or with the connection. */
  lemma SettledTracked(s: State, u: State, code: int, fate: Fate, fates: seq<Fate>)
    requires Tracked(s, fates) && u.books.popped == s.books.popped + TicketsOf(s.calls.deferred) && u.books.queued == s.books.queued
    requires u.calls.deferred == [] && u.wire.sent == s.wire.sent
    requires (fate == GivenBack && u.calls.closeCall.Some?) || (fate == Lost && u.wire.cut && (NotBusy(s.books.notes) ==> NotBusy(u.books.notes)))
    requires (s.calls.closeCall.Some? ==> u.calls.closeCall.Some?) && (s.wire.cut ==> u.wire.cut)
    ensures Tracked(u, fates + All(fate, |s.calls.deferred|))
  {
    hide NotBusy, FromQueue;
    assert TicketsOf([]) == [];
    BegunNone(s.books.popped, fates, TicketsOf(s.calls.deferred), fate);
  }

  lemma BeginCloseTracked(e: Env, s: State, r: Request, fates: seq<Fate>)
    requires Tracked(s, fates) && !r.scheduled
    ensures Tracked(BeginClose(e, s, r), fates + All(GivenBack, |s.calls.deferred|))
  {
    hide Tracked, GivenUp, WriteDeferredClose, NotBusy, FromQueue;
    GivenUpBooks(s.books, s.calls.deferred, BUSY);
    var m := CloseTaken(s, r);
    SettledTracked(s, m, BUSY, GivenBack, fates);
    CloseAside(e, m);
    AsideKeeps(m, WriteDeferredClose(e, m), fates + All(GivenBack, |s.calls.deferred|));
  }

  lemma NothingMore(fates: seq<Fate>)
    ensures fates + [] == fates
  {
  }

  lemma IssueTracked(e: Env, s: State, r0: Request, fates: seq<Fate>)
    requires Tracked(s, fates) && !r0.scheduled
    ensures Tracked(Issue(e, s, r0), fates + if Refusal(s, r0) == 0 && r0.verb == Close then All(GivenBack, |s.calls.deferred|) else [])
  {
    hide Tracked, Aside, Refusal, Launch, Write, BeginClose, AnswerRouted;
    NothingMore(fates);
    var r := Normalized(r0);
    if Refusal(s, r0) != 0 {
      AnswerAside(s, r, Refused(Refusal(s, r0)));
      AsideKeeps(s, Issue(e, s, r0), fates);
    } else if r.verb == Close {
      BeginCloseTracked(e, s, r, fates);
    } else if r.verb == Execute || Seeds(s, r) {
      LaunchAside(e, s, r);
      AsideKeeps(s, Issue(e, s, r0), fates);
    } else {
      WriteAside(e, s, r);
      AsideKeeps(s, Issue(e, s, r0), fates);
    }
  }

  // ---- the queue is drained ----

  /** The head is launched: it starts its run, or its fate says why not. */
  lemma LaunchTracked(e: Env, s: State, fates: seq<Fate>)
    requires Tracked(s, fates) && s.calls.deferred != [] && s.calls.deferred[0].scheduled && s.calls.deferred[0].verb == Deliver
    ensures Tracked(Launch(e, Popped(s), s.calls.deferred[0]), fates + [HeadFate(e, s)])
  {
    hide FromQueue, NotBusy, RefuseRun, Noted, Begun;
    var r, rs, n := s.calls.deferred[0], s.calls.deferred, s.calls.nextOut + 1;
    var s1 := ReserveRun(e, Popped(s));
    var s2 := s1.(runs := s1.runs.(fromTrace := r.verb == Deliver && r.traceCopy,
                                   fromCompletion := r.verb == Deliver && r.completion));
    var q := r.(run := s1.runs.current);
    assert TicketsOf(rs) == [r.ticket] + TicketsOf(rs[1..]);
    BegunMore(s.books.popped, fates, r.ticket, HeadFate(e, s));
    FromQueueMore(s.wire.sent, Call(n, q));
    LaunchBooks(e, s2, q);
  }

  lemma LaunchBooks(e: Env, s: State, r: Request)
    requires r.scheduled && r.verb == Deliver
    ensures var u := Write(e, s, r);
      && u.books.popped == s.books.popped && u.books.queued == s.books.queued && u.calls.deferred == s.calls.deferred
      && u.calls.closeCall == s.calls.closeCall && (NotBusy(s.books.notes) ==> NotBusy(u.books.notes))
      && (if !e.fits(s.calls.nextOut + 1) then u.wire == s.wire else u.wire == Send(e, s.wire, Call(s.calls.nextOut + 1, r)))
  {
  }

  lemma HeadPromised(s: State)
    requires Core(s) && !s.wire.stopping && s.calls.deferred != []
    ensures Promised(s.calls.deferred[0]) && !s.wire.closed
  {
  }

  lemma KeptBounds(s: State, t: State)
    requires Kept(s, t)
    ensures Bounded(ViewOf(t))
  {
  }

  lemma {:induction false} DrainTracked(e: Env, s: State, fates: seq<Fate>)
    requires Tracked(s, fates) && Core(s) && Bounded(ViewOf(s)) && !s.wire.stopping
    ensures Tracked(StartDeferred(e, s), fates + DrainFates(e, s))
    decreases |s.calls.deferred|
  {
    hide Tracked, Core, Bounded, Kept, Issue, Launch, HeadFate, Refusal;
    NothingMore(fates);
    if s.runs.current.None? && s.calls.deferred != [] {
      HeadPromised(s);
      PromiseIsKept(s);
      LaunchTracked(e, s, fates);
      DrainStep(e, s);
      var m := Issue(e, Popped(s), s.calls.deferred[0]);
      KeptBounds(Popped(s), m);
      DrainTracked(e, m, fates + [HeadFate(e, s)]);
      assert fates + [HeadFate(e, s)] + DrainFates(e, m) == fates + ([HeadFate(e, s)] + DrainFates(e, m));
    }
  }

  // ---- every event ----

  lemma RetainTracked(e: Env, s: State, r: Request, fates: seq<Fate>)
    requires Tracked(s, fates) && !r.scheduled && r.verb == Deliver
    ensures Tracked(Retain(e, s, r), fates)
  {
    hide Issue, HasRunCapacity, FromQueue, NotBusy, Begun, Refusal;
    if s.runs.current.None? {
      NothingMore(fates);
      IssueTracked(e, s, r, fates);
    } else if !HasRunCapacity(s) {
      AnswerAside(s, r, Refused(BUSY));
      AsideKeeps(s, Retain(e, s, r), fates);
    } else {
      var u := Retain(e, s, r);
      assert TicketsOf(u.calls.deferred) == TicketsOf(s.calls.deferred) + [r.ticket];
    }
  }

  lemma NoDrain(e: Env, s: State, r: Request, code: int)
    requires Inv(s) && (r.run.None? || (r.verb != Execute && code == INTERNAL))
    ensures var s1 := if r.verb == Execute || code != INTERNAL then RefuseRun(s, r.run) else s;
      DrainFates(e, AnswerRouted(s1, r, Refused(code))) == []
  {
    hide CallsOk, WireOk, RunsOk, FlagsOk;
  }

  lemma SettleTracked(e: Env, s: State, r: Request, response: Response, fates: seq<Fate>)
    requires Tracked(s, fates) && Inv(s) && Bounded(ViewOf(s)) && !s.wire.stopping && Issued(r) && RunReply(r, response)
    ensures Tracked(SettleResponse(e, s, r, response), fates + ResponseFates(e, s, r, response))
  {
    hide Tracked, Aside, Core, Bounded, Issue, Retain, FailResponse, DrainFates, RefuseRun, AnswerRouted, RecordAcknowledgment;
    NothingMore(fates);
    var u := SettleResponse(e, s, r, response);
    if r.destination == s.entry.identity && s.entry.attached && r.verb != Close && Retained(s, r, response) {
      RetainTracked(e, s, r, fates);
    } else if r.destination == s.entry.identity && s.entry.attached && r.verb != Close && response.Failed? {
      FailureKept(e, s, r, response.code);
      NoDrain(e, s, r, response.code);
      AnswerAside(s, r, Refused(response.code));
      AsideKeeps(s, u, fates);
    } else if r.destination == s.entry.identity && s.entry.attached && r.verb == Execute && r.collect && response.Succeeded? {
      IssueTracked(e, s, Collector(r, r.run.value), fates);
    } else {
      SettleAside(e, s, r, response);
      AsideKeeps(s, u, fates);
    }
  }

  /** Answers that start nothing and queue nothing. */
  lemma SettleAside(e: Env, s: State, r: Request, response: Response)
    requires !(r.destination == s.entry.identity && s.entry.attached && r.verb != Close && response.Failed?)
    requires !(r.destination == s.entry.identity && s.entry.attached && r.verb == Execute && r.collect && response.Succeeded?)
    ensures Aside(s, SettleResponse(e, s, r, response))
  {
    hide FromQueue, NotBusy, Issue, Retain, FailResponse, AnswerRouted, RecordAcknowledgment;
    AnswerAside(s, r, Refused(NOT_CONNECTED));
    AnswerAside(CloseWire(s), r, Refused(NOT_CONNECTED));
    AnswerAside(s, r, Done);
    AnswerAside(s.(runs := RecordAcknowledgment(s.runs, r.ref)), r, Done);
  }

  lemma CloseUnscheduled(s: State)
    requires Inv(s)
    ensures s.calls.closeCall.Some? ==> !s.calls.closeCall.value.scheduled
  {
    hide WireOk, RunsOk;
  }

  lemma PendingIssued(s: State, id: nat)
    requires Inv(s) && id in s.calls.pending
    ensures Issued(s.calls.pending[id])
  {
    hide WireOk, RunsOk;
  }

  lemma SettledInv(s: State, t: State, r: Request, response: Response)
    requires Settles(s, t, r, response)
    ensures Inv(t)
  {
  }

  lemma ReceiveTracked(e: Env, s: State, id: nat, response: Response, fates: seq<Fate>)
    requires Tracked(s, fates) && DaemonOk(s) && !s.wire.stopping && id in s.calls.pending && RunReply(s.calls.pending[id], response)
    ensures Tracked(ReceiveResponse(e, s, id, response), fates + ResponseFates(e, Removed(s, id), s.calls.pending[id], response))
  {
    hide Tracked, SettleResponse, WriteDeferredClose, Inv, Bounded, Settles, RunReply, ResponseFates, Issued;
    var r, m := s.calls.pending[id], Removed(s, id);
    ReplySettles(e, s, id, response);
    PendingIssued(s, id);
    AsideKeeps(s, m, fates);
    SettleTracked(e, m, r, response, fates);
    var u := SettleResponse(e, m, r, response);
    SettledInv(m, u, r, response);
    CloseUnscheduled(u);
    CloseAside(e, u);
    AsideKeeps(u, WriteDeferredClose(e, u), fates + ResponseFates(e, m, r, response));
  }

  lemma ReadyTracked(e: Env, s: State, call: nat, id: RunId, done: bool, fates: seq<Fate>)
    requires Tracked(s, fates) && DaemonOk(s) && !s.wire.stopping && ReadyMatches(s, id)
    ensures Tracked(TurnReady(e, s, call, id, done), fates + DrainFates(e, TurnAcked(e, s, call, done)))
  {
    hide Tracked, StartDeferred, Core, FromQueue, NotBusy, DrainFates;
    var m := TurnAcked(e, s, call, done);
    FromQueueMore(s.wire.sent, ReadyAck(call));
    assert Aside(s, m);
    hide Aside;
    AsideKeeps(s, m, fates);
    TurnAckedCore(e, s, call, id, done);
    DrainTracked(e, m, fates);
    var u := StartDeferred(e, m);
    var c := Charge(id, !s.runs.fromTrace);
    NoticeAside(u, c);
    AsideKeeps(u, u.(books := u.books.(notices := u.books.notices + [c])), fates + DrainFates(e, m));
  }

  lemma NoticeAside(s: State, c: Charge)
    ensures Aside(s, s.(books := s.books.(notices := s.books.notices + [c])))
  {
    hide FromQueue, NotBusy;
  }

  lemma SettledNotes(c: Calls, m: map<nat, seq<Answer>>, code: int)
    requires NotBusy(m) && code != BUSY
    ensures NotBusy(Settled(c, m, code, true))
  {
  }

  lemma ClosedTracked(s: State, fates: seq<Fate>)
    requires Tracked(s, fates) && !s.wire.closed
    ensures Tracked(ConnectionClosed(s), fates + All(Lost, |s.calls.deferred|))
  {
    hide Tracked, GivenUp, Settled, NotBusy;
    GivenUpBooks(s.books, s.calls.deferred, NOT_CONNECTED);
    var u := ConnectionClosed(s);
    var b := GivenUp(s.books, s.calls.deferred, NOT_CONNECTED);
    if NotBusy(s.books.notes) {
      SettledNotes(s.calls.(deferred := []), b.notes, NOT_CONNECTED);
    }
    SettledTracked(s, u, NOT_CONNECTED, Lost, fates);
  }

  lemma ExternalTracked(e: Env, s: State, event: Event, fates: seq<Fate>)
    requires Tracked(s, fates) && External(event) && !s.entry.peer
    ensures Tracked(Handle(e, s, event), fates + EventFates(e, s, event))
  {
    hide Tracked, Issue, BeginClose, SettlePending, Refusal, AnswerRouted, FromQueue, NotBusy;
    NothingMore(fates);
    match event
    case Routed(r) =>
      AnswerAside(s, r, Refused(NOT_CONNECTED));
      AsideKeeps(s, AnswerRouted(s, r, Refused(NOT_CONNECTED)), fates);
      IssueTracked(e, s, r, fates);
    case Disconnected => if !s.wire.closed { ClosedTracked(s, fates); }
    case Retire(ticket) =>
      BeginCloseTracked(e, s, Request(ticket, s.entry.identity, Close, None, None, false, false, false, false), fates);
    case CloseExpired => AsideKeeps(s, Handle(e, s, event), fates);
    case Tick(now) => AsideKeeps(s, Handle(e, s, event), fates);
  }

  lemma ReadsTracked(e: Env, sys: System, fates: seq<Fate>)
    requires LinkInv(sys) && Tracked(sys.d, fates) && sys.ur < |sys.w.out|
    ensures Tracked(Handle(e, sys.d, EventOf(sys.w.out[sys.ur])), fates + EventFates(e, sys.d, EventOf(sys.w.out[sys.ur])))
  {
    hide Tracked, StreamOk, WorkerOk, Joint, DaemonOk, ReceiveResponse, TurnReady, ViewOf, ResponseFates, DrainFates;
    NothingMore(fates);
    var s := sys.d;
    if !s.wire.stopping {
      match sys.w.out[sys.ur]
      case Reply(id, response) =>
        ReplyExpected(ViewOf(s), sys.w, sys.dr, sys.ur);
        ViewMeans(s);
        ReceiveTracked(e, s, id, response, fates);
      case ReadyCall(id, run, done) =>
        ReadyExpected(ViewOf(s), sys.w, sys.dr, sys.ur);
        ViewMeans(s);
        ReadyTracked(e, s, id, run, done, fates);
    }
  }

  lemma ViewMeans(s: State)
    requires DaemonOk(s)
    ensures ViewOf(s).pending == s.calls.pending && ViewOf(s).current == s.runs.current && !s.entry.peer
  {
  }

  // ---- every run ----

  lemma {:induction false} TrackedSafety(e: Env, identity: nat, steps: seq<Step>)
    requires AllHonest(steps)
    ensures Tracked(Run(e, Opened(identity), steps).d, Fates(e, Opened(identity), steps))
    decreases |steps|
  {
    hide Tracked, Handle, Receive, Advance, Enabled, StreamOk, WorkerOk, Joint, DaemonOk, EventFates, Opened;
    if steps == [] {
      StartTracked(identity);
    } else {
      var n := |steps| - 1;
      assert AllHonest(steps[..n]);
      TrackedSafety(e, identity, steps[..n]);
      LaneSafety(e, identity, steps[..n]);
      var sys, fates := Run(e, Opened(identity), steps[..n]), Fates(e, Opened(identity), steps[..n]);
      NothingMore(fates);
      match steps[n]
      case Daemon(event) =>
        if External(event) {
          LaneIsNoPeer(sys);
          ExternalTracked(e, sys.d, event, fates);
        }
      case DaemonReads => if sys.ur < |sys.w.out| { ReadsTracked(e, sys, fates); }
      case _ =>
    }
  }

  lemma LaneIsNoPeer(sys: System)
    requires LinkInv(sys)
    ensures !sys.d.entry.peer
  {
  }

  lemma StartTracked(identity: nat)
    ensures Tracked(Opened(identity).d, [])
  {
    assert TicketsOf([]) == [];
  }

  /** Only a body that fits no frame is called too big. */
  predicate TrulyTooBig(e: Env, fates: seq<Fate>) { forall i :: 0 <= i < |fates| && fates[i].TooBig? ==> !e.fits(fates[i].call) }

  lemma {:induction false} DrainTooBig(e: Env, s: State)
    ensures TrulyTooBig(e, DrainFates(e, s))
    decreases |s.calls.deferred|
  {
    hide Issue;
    if s.runs.current.None? && s.calls.deferred != [] {
      DrainTooBig(e, Issue(e, Popped(s), s.calls.deferred[0]));
    }
  }

  lemma EventTooBig(e: Env, s: State, event: Event)
    ensures TrulyTooBig(e, EventFates(e, s, event))
  {
    hide DrainFates, RefuseRun, AnswerRouted, TurnAcked, Refusal;
    forall u: State ensures TrulyTooBig(e, DrainFates(e, u)) { DrainTooBig(e, u); }
  }

  lemma {:induction false} FatesTooBig(e: Env, sys: System, steps: seq<Step>)
    ensures TrulyTooBig(e, Fates(e, sys, steps))
    decreases |steps|
  {
    hide EventFates, Run;
    if steps != [] {
      var n := |steps| - 1;
      FatesTooBig(e, sys, steps[..n]);
      var m := Run(e, sys, steps[..n]);
      forall event: Event ensures TrulyTooBig(e, EventFates(e, m.d, event)) { EventTooBig(e, m.d, event); }
    }
  }

  /**
    In every interleaving: the runs on the wire that come from the queue are, in
    the order of the promises, exactly the deliveries taken from it whose body
    fits a frame and whom neither a close nor the loss of the wire came before.
    A promised delivery is refused as busy only by a close.
   */
  lemma PromisesAreKept(e: Env, identity: nat, steps: seq<Step>)
    requires AllHonest(steps)
    ensures var s, fates := Run(e, Opened(identity), steps).d, Fates(e, Opened(identity), steps);
      && |fates| == |s.books.popped| && s.books.popped <= s.books.queued
      && FromQueue(s.wire.sent) == Begun(s.books.popped, fates)
      && (forall i :: 0 <= i < |fates| ==> (fates[i] == GivenBack ==> s.calls.closeCall.Some?) && (fates[i] == Lost ==> s.wire.cut))
      && TrulyTooBig(e, fates)
      && (forall t :: Refused(BUSY) in At(s.books.notes, t) ==> s.calls.closeCall.Some?)
      && (forall i :: 0 <= i < |s.wire.sent| && s.wire.sent[i].Call? && s.wire.sent[i].request.scheduled ==>
            s.wire.sent[i].request.verb == Deliver && s.wire.sent[i].request.run.Some?)
  {
    TrackedSafety(e, identity, steps);
    LaneSafety(e, identity, steps);
    FatesTooBig(e, Opened(identity), steps);
    hide TrulyTooBig, Run, Fates, FromQueue, Begun, Joint, StreamOk, WorkerOk, RunsOk, CallsOk;
  }
}
