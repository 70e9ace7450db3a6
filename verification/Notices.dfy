/**
  Automatic completion notices on one lane: a run that a notice started sends
  none, no run sends two, and the notice of a run that a trace copy started is
  not traced.
 */
module Notices {
  import opened Common
  import opened RunIds
  import opened SessionModel
  import opened SessionProofs
  import opened WorkerModel
  import opened LaneLink
  import opened LaneOrder

  /** A run frame that delivers a completion notice. */
  predicate Marked(f: Down) { f.Call? && f.request.verb == Deliver && f.request.completion }

  /** A run frame that delivers a trace copy. */
  predicate Copied(f: Down) { f.Call? && f.request.verb == Deliver && f.request.traceCopy }

  predicate Starts(f: Down, id: RunId) { f.Call? && f.request.run == Some(id) }

  /** The runs the daemon may still reserve come after these. */
  predicate Past(id: RunId, runs: Runs) {
    runs.generation == Some(id.generation) && id.sequence <= runs.sequence && (runs.current.Some? ==> id.sequence < runs.sequence)
  }

  ghost predicate FramesOk(sent: seq<Down>, runs: Runs) {
    && (forall i :: 0 <= i < |sent| && sent[i].Call? && sent[i].request.run.Some? ==>
          Past(sent[i].request.run.value, runs) || sent[i].request.run == runs.current)
    && (forall i :: 0 <= i < |sent| && runs.current.Some? && Starts(sent[i], runs.current.value) ==>
          Marked(sent[i]) == runs.fromCompletion && Copied(sent[i]) == runs.fromTrace)
  }

  ghost predicate NoticesOk(sent: seq<Down>, runs: Runs, notices: seq<Charge>) {
    && (forall k :: 0 <= k < |notices| ==> Past(notices[k].run, runs))
    && (forall k, i :: 0 <= k < |notices| && 0 <= i < |sent| && Starts(sent[i], notices[k].run) ==>
          !Marked(sent[i]) && Copied(sent[i]) == !notices[k].traced)
    && (forall k, l :: 0 <= k < l < |notices| ==> notices[k].run != notices[l].run)
  }

  ghost predicate Charged(s: State) {
    && FramesOk(s.wire.sent, s.runs) && NoticesOk(s.wire.sent, s.runs, s.books.notices)
    && (s.runs.generation.None? ==> s.runs.sequence == 0)
  }

  /** What a charge says of the frames that start its run. */
  lemma ChargeTells(s: State, c: Charge, i: nat)
    requires Charged(s) && c in s.books.notices && i < |s.wire.sent| && Starts(s.wire.sent[i], c.run)
    ensures !Marked(s.wire.sent[i]) && Copied(s.wire.sent[i]) == !c.traced
  {
    hide FramesOk, Past;
    var k :| 0 <= k < |s.books.notices| && s.books.notices[k] == c;
  }

  lemma ChargesDiffer(s: State, c: Charge, d: Charge)
    requires Charged(s) && c in s.books.notices && d in s.books.notices && c != d
    ensures c.run != d.run
  {
    hide FramesOk, Past;
  }

  /** Nothing about runs changes, and no frame of a run is written. */
  predicate Unmoved(s: State, u: State) {
    && u.runs.current == s.runs.current && u.runs.sequence == s.runs.sequence && u.runs.generation == s.runs.generation
    && (s.runs.current.Some? ==> u.runs.fromCompletion == s.runs.fromCompletion && u.runs.fromTrace == s.runs.fromTrace) && u.books.notices == s.books.notices
    && s.wire.sent <= u.wire.sent
    && forall i :: |s.wire.sent| <= i < |u.wire.sent| && u.wire.sent[i].Call? ==> u.wire.sent[i].request.run.None?
  }

  lemma UnmovedKeeps(s: State, u: State)
    requires Charged(s) && Unmoved(s, u)
    ensures Charged(u)
  {
    assert forall i :: 0 <= i < |s.wire.sent| ==> u.wire.sent[i] == s.wire.sent[i];
  }

  lemma UnmovedTwice(s: State, m: State, u: State)
    requires Unmoved(s, m) && Unmoved(m, u)
    ensures Unmoved(s, u)
  {
    assert forall i :: 0 <= i < |m.wire.sent| ==> u.wire.sent[i] == m.wire.sent[i];
  }

  lemma WriteUnmoved(e: Env, s: State, r: Request)
    requires r.run.None?
    ensures Unmoved(s, Write(e, s, r))
  {
  }

  lemma CloseUnmoved(e: Env, s: State)
    requires s.calls.closeCall.Some? ==> s.calls.closeCall.value.run.None?
    ensures Unmoved(s, WriteDeferredClose(e, s))
  {
  }

  lemma {:induction false} GivenUpNotices(b: Books, rs: seq<Request>, code: int)
    ensures GivenUp(b, rs, code).notices == b.notices
    decreases |rs|
  {
    if rs != [] {
      GivenUpNotices(Noted(b, rs[0], Refused(code)).(popped := b.popped + [rs[0].ticket]), rs[1..], code);
    }
  }

  lemma BeginCloseUnmoved(e: Env, s: State, r: Request)
    requires r.run.None?
    ensures Unmoved(s, BeginClose(e, s, r))
  {
    hide GivenUp, WriteDeferredClose;
    GivenUpNotices(s.books, s.calls.deferred, BUSY);
    var m := CloseTaken(s, r);
    assert Unmoved(s, m);
    CloseUnmoved(e, m);
    UnmovedTwice(s, m, WriteDeferredClose(e, m));
  }

  /** The reservation was taken back before anything was written. */
  predicate TakenBack(s: State, u: State, id: RunId) {
    && u.runs.current.None? && u.runs.sequence == s.runs.sequence && u.runs.generation == Some(id.generation)
    && u.wire.sent == s.wire.sent && u.books.notices == s.books.notices
  }

  /** Run id is under way, and its frame, marked or not, is written unless the wire is cut. */
  predicate Begun(s: State, u: State, id: RunId, r: Request) {
    && u.runs.current == Some(id) && u.runs.sequence == id.sequence && u.runs.generation == Some(id.generation)
    && u.runs.fromCompletion == (r.verb == Deliver && r.completion) && u.runs.fromTrace == (r.verb == Deliver && r.traceCopy) && u.books.notices == s.books.notices
    && (u.wire.sent == s.wire.sent || u.wire.sent == s.wire.sent + [Call(s.calls.nextOut + 1, r.(run := Some(id)))])
  }

  lemma LaunchShape(e: Env, s: State, r: Request)
    ensures var id, u := NextRun(e, s.runs), Launch(e, s, r); TakenBack(s, u, id) || Begun(s, u, id, r)
  {
  }

  lemma TakenBackKeeps(s: State, u: State, id: RunId)
    requires Charged(s) && TakenBack(s, u, id) && s.runs.current.None?
    requires s.runs.generation == Some(id.generation) || s.runs.generation.None?
    ensures Charged(u)
  {
  }

  lemma BegunKeeps(s: State, u: State, id: RunId, r: Request)
    requires Charged(s) && Begun(s, u, id, r) && s.runs.current.None? && id.sequence == s.runs.sequence + 1
    requires s.runs.generation == Some(id.generation) || s.runs.generation.None?
    ensures Charged(u)
  {
    assert forall i :: 0 <= i < |s.wire.sent| ==> u.wire.sent[i] == s.wire.sent[i];
    assert forall i :: 0 <= i < |s.wire.sent| ==> !Starts(s.wire.sent[i], id);
  }

  /** A launched run is new; its mark is that of the request that starts it. */
  lemma LaunchCharged(e: Env, s: State, r: Request)
    requires Charged(s) && s.runs.current.None?
    ensures Charged(Launch(e, s, r))
  {
    hide Charged, Launch;
    var id, u := NextRun(e, s.runs), Launch(e, s, r);
    LaunchShape(e, s, r);
    if TakenBack(s, u, id) {
      TakenBackKeeps(s, u, id);
    } else {
      BegunKeeps(s, u, id, r);
    }
  }

  lemma IssueCharged(e: Env, s: State, r0: Request)
    requires Charged(s) && RunsOk(s) && !s.entry.peer && s.entry.attached && Issuable(r0)
    ensures Charged(Issue(e, s, r0))
  {
    hide Charged, Write, BeginClose, Launch, HasRunCapacity;
    var r, u := Normalized(r0), Issue(e, s, r0);
    if Refusal(s, r0) != 0 {
      UnmovedKeeps(s, u);
    } else if r.verb == Close {
      BeginCloseUnmoved(e, s, r);
      UnmovedKeeps(s, u);
    } else if r.verb == Execute || Seeds(s, r) {
      LaunchCharged(e, s, r);
    } else {
      WriteUnmoved(e, s, r);
      UnmovedKeeps(s, u);
    }
  }

  lemma {:induction false} StartDeferredCharged(e: Env, s: State)
    requires Charged(s) && Core(s) && Bounded(ViewOf(s)) && !s.wire.stopping && !s.entry.peer
    ensures Charged(StartDeferred(e, s))
    decreases |s.calls.deferred|
  {
    hide Charged, Issue, CallsOk, WireOk, Kept, RunsOk;
    if s.runs.current.None? && s.calls.deferred != [] {
      HeadIssues(s);
      UnmovedKeeps(s, Popped(s));
      IssueCharged(e, Popped(s), s.calls.deferred[0]);
      DrainStep(e, s);
      KeptMeans(Popped(s), Issue(e, Popped(s), s.calls.deferred[0]));
      StartDeferredCharged(e, Issue(e, Popped(s), s.calls.deferred[0]));
    }
  }

  lemma HeadIssues(s: State)
    requires Core(s) && !s.wire.stopping && s.calls.deferred != []
    ensures Issuable(s.calls.deferred[0]) && RunsOk(Popped(s)) && s.entry.attached
  {
    assert Promised(s.calls.deferred[0]);
  }

  lemma KeptMeans(s: State, t: State)
    requires Kept(s, t)
    ensures Bounded(ViewOf(t)) && t.entry.peer == s.entry.peer
  {
  }

  /** An answer that a worker may give to a run leaves the run in place; any other starts at most a queued delivery. */
  lemma SettleCharged(e: Env, s: State, r: Request, response: Response)
    requires Charged(s) && Inv(s) && Bounded(ViewOf(s)) && !s.wire.stopping && !s.entry.peer && Issued(r) && RunReply(r, response)
    ensures Charged(SettleResponse(e, s, r, response))
  {
    var u := SettleResponse(e, s, r, response);
    OpenView(s);
    if r.destination == s.entry.identity && s.entry.attached && r.verb != Close && Retained(s, r, response) {
      RetainCharged(e, s, r);
    } else if r.destination == s.entry.identity && s.entry.attached && r.verb != Close && response.Failed? {
      FailureKept(e, s, r, response.code);
      UnmovedKeeps(s, u);
    } else if r.destination == s.entry.identity && s.entry.attached && r.verb == Execute && r.collect && response.Succeeded? {
      IssueCharged(e, s, Collector(r, r.run.value));
    } else {
      hide Charged, Issue, Retain, FailResponse;
      UnmovedKeeps(s, u);
    }
  }

  lemma RetainCharged(e: Env, s: State, r: Request)
    requires Charged(s) && RunsOk(s) && !s.entry.peer && s.entry.attached && Issued(r) && r.verb == Deliver && r.run.None?
    ensures Charged(Retain(e, s, r))
  {
    hide Charged, Issue, HasRunCapacity;
    if s.runs.current.None? {
      IssueCharged(e, s, r);
    } else {
      UnmovedKeeps(s, Retain(e, s, r));
    }
  }

  lemma ReceiveCharged(e: Env, s: State, id: nat, response: Response)
    requires Charged(s) && DaemonOk(s) && !s.wire.stopping && id in s.calls.pending && RunReply(s.calls.pending[id], response)
    ensures Charged(ReceiveResponse(e, s, id, response))
  {
    hide Charged, SettleResponse, WriteDeferredClose, RunsOk, WireOk;
    var r, m := s.calls.pending[id], Removed(s, id);
    ReplySettles(e, s, id, response);
    UnmovedKeeps(s, m);
    SettleCharged(e, m, r, response);
    var u := SettleResponse(e, m, r, response);
    if r.verb == Execute && r.collect {
      CloseUnmoved(e, u);
      UnmovedKeeps(u, WriteDeferredClose(e, u));
    }
  }

  /** A past run keeps its frames: whatever is issued later belongs to later runs. */
  ghost predicate Unstarted(s: State, c: Charge) {
    && Past(c.run, s.runs) && (forall k :: 0 <= k < |s.books.notices| ==> s.books.notices[k].run != c.run)
    && forall i :: 0 <= i < |s.wire.sent| && Starts(s.wire.sent[i], c.run) ==> !Marked(s.wire.sent[i]) && Copied(s.wire.sent[i]) == !c.traced
  }

  /** The end of a turn: the run joins the past, and is charged a notice only if none started it. */
  lemma TurnAckedCharged(e: Env, s: State, call: nat, id: RunId, done: bool)
    requires Charged(s) && RunsOk(s) && ReadyMatches(s, id)
    ensures var m := TurnAcked(e, s, call, done);
      Charged(m) && (!s.runs.fromCompletion ==> Unstarted(m, Charge(id, !s.runs.fromTrace)))
  {
    var m := TurnAcked(e, s, call, done);
    assert forall i :: 0 <= i < |s.wire.sent| ==> m.wire.sent[i] == s.wire.sent[i];
  }

  lemma LaunchUnstarted(e: Env, s: State, r: Request, c: Charge)
    requires Unstarted(s, c) && s.runs.current.None?
    ensures Unstarted(Launch(e, s, r), c)
  {
    hide Launch;
    LaunchShape(e, s, r);
    var u := Launch(e, s, r);
    assert forall i :: 0 <= i < |s.wire.sent| ==> u.wire.sent[i] == s.wire.sent[i];
  }

  lemma {:induction false} StartDeferredUnstarted(e: Env, s: State, c: Charge)
    requires Unstarted(s, c) && Core(s) && Bounded(ViewOf(s)) && !s.wire.stopping && !s.entry.peer
    ensures Unstarted(StartDeferred(e, s), c)
    decreases |s.calls.deferred|
  {
    hide CallsOk, WireOk, Kept, RunsOk, Issue, Launch;
    if s.runs.current.None? && s.calls.deferred != [] {
      OpenView0(s);
      PromiseIsKept(s);
      LaunchUnstarted(e, Popped(s), s.calls.deferred[0], c);
      DrainStep(e, s);
      KeptMeans(Popped(s), Issue(e, Popped(s), s.calls.deferred[0]));
      StartDeferredUnstarted(e, Issue(e, Popped(s), s.calls.deferred[0]), c);
    }
  }

  lemma OpenView0(s: State)
    requires Core(s) && !s.wire.stopping
    ensures !s.wire.closed
  {
  }

  lemma ReadyCharged(e: Env, s: State, call: nat, id: RunId, done: bool)
    requires Charged(s) && DaemonOk(s) && !s.wire.stopping && ReadyMatches(s, id)
    ensures Charged(TurnReady(e, s, call, id, done))
  {
    hide Charged, StartDeferred, RunsOk, CallsOk, WireOk, Unstarted, TurnAcked;
    var m, t := TurnAcked(e, s, call, done), TurnReady(e, s, call, id, done);
    TurnReadyKept(e, s, call, id, done);
    AckedFlags(e, s, call, id, done);
    TurnAckedCharged(e, s, call, id, done);
    StartDeferredCharged(e, m);
    if e.notifies && !s.runs.fromCompletion && StartDeferred(e, m).calls.closeCall.None? {
      StartDeferredUnstarted(e, m, Charge(id, !s.runs.fromTrace));
      NoticeAdded(StartDeferred(e, m), t, Charge(id, !s.runs.fromTrace));
    }
  }

  lemma AckedFlags(e: Env, s: State, call: nat, id: RunId, done: bool)
    requires DaemonOk(s) && ReadyMatches(s, id)
    ensures Core(TurnAcked(e, s, call, done)) && !TurnAcked(e, s, call, done).entry.peer && RunsOk(s)
  {
    hide CallsOk, WireOk;
    TurnAckedCore(e, s, call, id, done);
  }

  lemma NoticeAdded(s: State, u: State, c: Charge)
    requires Charged(s) && Unstarted(s, c) && u == s.(books := s.books.(notices := s.books.notices + [c]))
    ensures Charged(u)
  {
  }

  lemma ClosedUnmoved(s: State)
    ensures Unmoved(s, ConnectionClosed(s))
  {
    hide GivenUp, Settled;
    GivenUpNotices(s.books, s.calls.deferred, NOT_CONNECTED);
  }

  lemma ExternalCharged(e: Env, s: State, event: Event)
    requires Charged(s) && DaemonOk(s) && External(event)
    ensures Charged(Handle(e, s, event))
  {
    hide Charged, Issue, BeginClose, ConnectionClosed, CallsOk, WireOk;
    match event
    case Routed(r) =>
      if !(s.wire.stopping || r.destination != s.entry.identity || s.entry.launching) {
        IssueCharged(e, s, r);
      } else {
        UnmovedKeeps(s, Handle(e, s, event));
      }
    case Disconnected =>
      ClosedUnmoved(s);
      UnmovedKeeps(s, Handle(e, s, event));
    case Retire(ticket) =>
      BeginCloseUnmoved(e, s, Request(ticket, s.entry.identity, Close, None, None, false, false, false, false));
      if Handle(e, s, event) != s {
        UnmovedKeeps(s, Handle(e, s, event));
      }
    case CloseExpired => UnmovedKeeps(s, Handle(e, s, event));
    case Tick(now) => UnmovedKeeps(s, Handle(e, s, event));
  }

  lemma ReadsCharged(e: Env, sys: System)
    requires LinkInv(sys) && Charged(sys.d) && sys.ur < |sys.w.out|
    ensures Charged(Handle(e, sys.d, EventOf(sys.w.out[sys.ur])))
  {
    hide Charged, StreamOk, WorkerOk, Joint, DaemonOk, ReceiveResponse, TurnReady, ViewOf;
    var s := sys.d;
    if !s.wire.stopping {
      match sys.w.out[sys.ur]
      case Reply(id, response) =>
        ReplyExpected(ViewOf(s), sys.w, sys.dr, sys.ur);
        ViewPending(s);
        ReceiveCharged(e, s, id, response);
      case ReadyCall(id, run, done) =>
        ReadyExpected(ViewOf(s), sys.w, sys.dr, sys.ur);
        ViewPending(s);
        ReadyCharged(e, s, id, run, done);
    }
  }

  lemma ViewPending(s: State)
    requires DaemonOk(s)
    ensures ViewOf(s).pending == s.calls.pending && ViewOf(s).current == s.runs.current && !s.entry.peer
  {
  }

  lemma {:induction false} NoticeSafety(e: Env, identity: nat, steps: seq<Step>)
    requires AllHonest(steps)
    ensures Charged(Run(e, Opened(identity), steps).d)
    decreases |steps|
  {
    hide Charged, Handle, Receive, Advance, Enabled, StreamOk, WorkerOk, Joint, DaemonOk;
    if steps == [] {
      StartCharged(identity);
    } else {
      var n := |steps| - 1;
      assert AllHonest(steps[..n]);
      NoticeSafety(e, identity, steps[..n]);
      LaneSafety(e, identity, steps[..n]);
      var sys := Run(e, Opened(identity), steps[..n]);
      match steps[n]
      case Daemon(event) => if External(event) { ExternalCharged(e, sys.d, event); }
      case DaemonReads => if sys.ur < |sys.w.out| { ReadsCharged(e, sys); }
      case _ =>
    }
  }

  lemma StartCharged(identity: nat)
    ensures Charged(Opened(identity).d)
  {
  }
}
