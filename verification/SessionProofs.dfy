/** What every step of the session loop keeps, whatever the worker answers. */
module SessionProofs {
  import opened Common
  import opened RunIds
  import opened SessionModel

  predicate RunFrame(f: Down) { f.Call? && f.request.run.Some? }

  predicate CloseFrame(f: Down) { f.Call? && f.request.verb == Close }

  /** Requests as they appear in the pending table and on the wire. */
  predicate Issued(r: Request) {
    && r.verb != Start && r.verb != RunAndWait
    && (r.run.Some? ==> CarriesBody(r.verb))
    && (r.verb == Execute ==> r.run.Some?)
    && (r.collect ==> r.verb == Execute || r.verb == Wait)
    && (r.scheduled ==> r.verb == Deliver && r.run.Some?)
    && (r.verb == Ack ==> r.ref.Some?)
  }

  /** Requests that reach `Issue`: fresh ones, the read of a blocking run, and promised deliveries. */
  predicate Issuable(r: Request) {
    && r.run.None? && r.verb != Execute
    && (r.collect ==> r.verb == Wait)
    && (r.scheduled ==> r.verb == Deliver)
    && (r.verb == Ack ==> r.ref.Some?)
  }

  predicate Promised(r: Request) { r.scheduled && r.verb == Deliver && r.run.None? && !r.collect }

  predicate RunsOk(s: State) {
    && (s.runs.current.Some? ==>
          && s.runs.generation == Some(s.runs.current.value.generation)
          && s.runs.current.value.sequence == s.runs.sequence
          && s.runs.sequence >= 1)
    && (!s.entry.peer && s.entry.attached ==> s.entry.running == s.runs.current.Some?)
  }

  predicate NoClose(pending: map<nat, Request>) { forall id :: id in pending ==> pending[id].verb != Close }

  predicate NoBlocking(pending: map<nat, Request>) {
    forall id :: id in pending ==> !(pending[id].verb == Execute && pending[id].collect)
  }

  predicate CallsOk(c: Calls) {
    && (forall id :: id in c.pending ==> 1 <= id <= c.nextOut && Issued(c.pending[id]))
    && (forall i :: 0 <= i < |c.deferred| ==> Promised(c.deferred[i]))
    && (c.closeCall.None? ==> NoClose(c.pending))
    && (c.closeCall.Some? ==> c.deferred == [] && c.closeCall.value.verb == Close && Issued(c.closeCall.value))
    && (NoClose(c.pending) ==> |c.pending| + |c.deferred| <= MAX_PENDING_CALLS)
    && (!NoClose(c.pending) ==> NoBlocking(c.pending) && |c.pending| <= MAX_PENDING_CALLS + 1)
  }

  /** Frames in flight: numbered upwards, and no run after a close. */
  predicate SentOk(sent: seq<Down>, nextOut: nat, closing: bool) {
    && (forall i :: 0 <= i < |sent| && sent[i].Call? ==> 1 <= sent[i].id <= nextOut && Issued(sent[i].request))
    && (forall i, j :: 0 <= i < j < |sent| && sent[i].Call? && sent[j].Call? ==> sent[i].id < sent[j].id)
    && (forall i :: 0 <= i < |sent| && CloseFrame(sent[i]) ==> closing)
    && (forall i, j :: 0 <= i < j < |sent| && CloseFrame(sent[i]) ==> !RunFrame(sent[j]))
  }

  predicate WireOk(s: State) { SentOk(s.wire.sent, s.calls.nextOut, s.calls.closeCall.Some?) }

  predicate FlagsOk(s: State) {
    && s.entry.attached == !s.wire.closed
    && (s.wire.closed ==> s.wire.stopping)
    && (s.wire.stopping ==> s.wire.cut)
    && (s.entry.claimed ==> s.wire.closed || s.calls.closeCall.Some?)
    && (s.entry.peer ==> s.calls.deferred == [] && s.calls.closeCall.None?)
  }

  /** Everything but the promise that a queued delivery waits behind a run. */
  predicate Core(s: State) { RunsOk(s) && CallsOk(s.calls) && WireOk(s) && FlagsOk(s) }

  /** The invariant between two events. */
  predicate Inv(s: State) { Core(s) && (s.calls.deferred != [] ==> s.runs.current.Some?) }

  lemma PendingLess(m: map<nat, Request>, id: nat)
    requires id in m
    ensures |m - {id}| == |m| - 1
  {
    assert (m - {id}).Keys == m.Keys - {id};
    assert |m.Keys| == |m| && |(m - {id}).Keys| == |m - {id}|;
  }

  lemma PendingMore(m: map<nat, Request>, id: nat, r: Request)
    requires id !in m
    ensures |m[id := r]| == |m| + 1
  {
  }

  /**
    Reserving a run and refusing it leaves no run and restores the sequence, the
    running flag and the auto-close deadline, timer included.
   */
  lemma ReserveThenRefuse(e: Env, s: State)
    requires s.runs.current.None? && s.entry.attached && !s.entry.running && s.clock.armed == (s.clock.deadline != 0)
    ensures var u := RefuseRun(ReserveRun(e, s), ReserveRun(e, s).runs.current);
      && ReserveRun(e, s).runs.current.Some? && u.runs.current.None? && u.runs.sequence == s.runs.sequence
      && u.entry == s.entry && u.clock == s.clock.(previous := s.clock.deadline)
      && u.calls == s.calls && u.wire == s.wire && u.books == s.books
  {
  }

  lemma CallAdded(c: Calls, r: Request)
    requires CallsOk(c) && Issued(r) && NoClose(c.pending)
    requires if r.verb == Close then c.closeCall.Some? && NoBlocking(c.pending)
             else |c.pending| + |c.deferred| < MAX_PENDING_CALLS
    ensures CallsOk(c.(nextOut := c.nextOut + 1, pending := c.pending[c.nextOut + 1 := r]))
    ensures CallsOk(c.(nextOut := c.nextOut + 1))
  {
    var m := c.pending[c.nextOut + 1 := r];
    PendingMore(c.pending, c.nextOut + 1, r);
    assert m[c.nextOut + 1] == r;
    assert forall id :: id in c.pending ==> m[id] == c.pending[id];
  }

  lemma SentMore(sent: seq<Down>, nextOut: nat, closing: bool, f: Down)
    requires SentOk(sent, nextOut, closing)
    requires f.Call? ==> f.id == nextOut + 1 && Issued(f.request)
    requires RunFrame(f) ==> !closing
    requires CloseFrame(f) ==> closing
    ensures SentOk(sent + [f], nextOut + 1, closing) && SentOk(sent, nextOut + 1, closing)
  {
  }

  /** A reservation whose frame is not out yet: only the running flag is behind. */
  predicate Reserved(s: State, r: Request) {
    if r.run.None? then RunsOk(s) else
    r.run == s.runs.current && !s.entry.peer && s.entry.attached && RunsOk(s.(entry := s.entry.(running := true)))
  }

  lemma UndoneCore(s: State, r: Request, a: Answer)
    requires Reserved(s, r) && CallsOk(s.calls) && WireOk(s) && FlagsOk(s)
    ensures Core(AnswerRouted(RefuseRun(s, r.run), r, a))
  {
    var t := RefuseRun(s, r.run);
    assert RunsOk(t) && t.calls == s.calls && t.wire == s.wire && FlagsOk(t);
  }

  /** Writing one call; a run-carrying call is the reservation just made. */
  lemma WriteCore(e: Env, s: State, r: Request)
    requires Reserved(s, r) && CallsOk(s.calls) && WireOk(s) && FlagsOk(s) && !s.wire.closed
    requires Issued(r) && r.verb != Close && NoClose(s.calls.pending)
    requires |s.calls.pending| + |s.calls.deferred| < MAX_PENDING_CALLS
    requires r.run.Some? ==> s.calls.closeCall.None?
    ensures Core(Write(e, s, r))
  {
    CallAdded(s.calls, r);
    var id := s.calls.nextOut + 1;
    SentMore(s.wire.sent, s.calls.nextOut, s.calls.closeCall.Some?, Call(id, r));
    var s1 := s.(calls := s.calls.(nextOut := id));
    var s2 := s1.(wire := Send(e, s.wire, Call(id, r)));
    if CarriesBody(r.verb) && !e.fits(id) {
      UndoneCore(s1, r, Refused(NOT_CONNECTED));
    } else if !e.room(s.wire.attempts) {
      UndoneCore(s2, r, Refused(NOT_CONNECTED));
    } else {
      var t := Write(e, s, r);
      assert CallsOk(t.calls) && WireOk(t);
      assert RunsOk(t) && FlagsOk(t);
    }
  }

  /** What the worker's side of a lane can notice of a session. */
  datatype View = View(current: Option<RunId>, generation: Option<string>, sequence: nat, acknowledged: nat,
                       pending: map<nat, Request>, nextOut: nat, sent: seq<Down>, cut: bool, promised: nat)

  function ViewOf(s: State): View {
    View(s.runs.current, s.runs.generation, s.runs.sequence, s.runs.acknowledged,
         s.calls.pending, s.calls.nextOut, s.wire.sent, s.wire.cut, |s.calls.deferred|)
  }

  /** The records the worker retains or will retain never exceed its table. */
  predicate Bounded(v: View) { v.acknowledged <= v.sequence && v.sequence - v.acknowledged + v.promised <= MAX_OPERATIONS }

  predicate SameRuns(v: View, u: View) {
    && u.current == v.current && u.sequence == v.sequence && u.acknowledged == v.acknowledged
    && (v.generation.Some? ==> u.generation == v.generation)
  }

  /** Nothing was written. */
  predicate Still(v: View, u: View) {
    && SameRuns(v, u) && u.pending == v.pending && u.nextOut >= v.nextOut && u.sent == v.sent
    && (v.cut ==> u.cut) && u.promised <= v.promised
  }

  /** The newest call is pending, and on the wire unless the wire is cut. */
  predicate Wrote(v: View, u: View, r: Request) {
    && u.nextOut > v.nextOut && Issued(r) && u.pending == v.pending[u.nextOut := r]
    && u.sent == (if u.cut then v.sent else v.sent + [Call(u.nextOut, r)])
    && (v.cut ==> u.cut) && u.promised <= v.promised
  }

  /** The newest call starts the next run. */
  predicate Launched(v: View, u: View, r: Request) {
    && Wrote(v, u, r) && v.current.None? && u.current.Some? && r.run == u.current
    && u.current.value.sequence == v.sequence + 1 == u.sequence && u.acknowledged == v.acknowledged
    && u.generation == Some(u.current.value.generation) && (v.generation.Some? ==> u.generation == v.generation)
    && v.sequence - v.acknowledged < MAX_OPERATIONS
  }

  function Newest(u: View): Request
    requires u.nextOut in u.pending
  {
    u.pending[u.nextOut]
  }

  /** Every way in which issuing a request changes what the worker can notice. */
  predicate Moved(v: View, u: View) {
    || Still(v, u)
    || (u.nextOut in u.pending && Wrote(v, u, Newest(u)) && SameRuns(v, u) && Newest(u).run.None?)
    || (u.nextOut in u.pending && Launched(v, u, Newest(u)))
  }

  lemma StillMoved(v: View, u: View, w: View)
    requires Still(v, u) && Moved(u, w)
    ensures Moved(v, w)
  {
  }

  lemma WriteMoves(e: Env, s: State, r: Request)
    requires r.run.None? && Issued(r)
    ensures Moved(ViewOf(s), ViewOf(Write(e, s, r)))
  {
  }

  lemma LaunchMoves(e: Env, s: State, r: Request)
    requires s.runs.current.None? && Issued(r.(run := Some(NextRun(e, s.runs))))
    requires s.runs.acknowledged <= s.runs.sequence && s.runs.sequence - s.runs.acknowledged + |s.calls.deferred| < MAX_OPERATIONS
    ensures Moved(ViewOf(s), ViewOf(Launch(e, s, r))) && Bounded(ViewOf(Launch(e, s, r)))
  {
  }

  lemma LaunchCore(e: Env, s: State, r: Request)
    requires Core(s) && !s.wire.closed && !s.entry.peer && s.runs.current.None? && s.calls.closeCall.None?
    requires Issued(r.(run := Some(NextRun(e, s.runs)))) && |s.calls.pending| + |s.calls.deferred| < MAX_PENDING_CALLS
    ensures Core(Launch(e, s, r))
  {
    var s1 := ReserveRun(e, s);
    var s2 := s1.(runs := s1.runs.(fromTrace := r.verb == Deliver && r.traceCopy,
                                   fromCompletion := r.verb == Deliver && r.completion));
    WriteCore(e, s2, r.(run := s1.runs.current));
  }

  /** Writing the close changes nothing about runs, or stops the session with nothing written. */
  predicate ClosedOrMoved(s: State, t: State) {
    && t.wire.closed == s.wire.closed && t.runs == s.runs
    && (if t.wire.stopping then t.wire.sent == s.wire.sent else Moved(ViewOf(s), ViewOf(t)))
  }

  lemma DeferredCloseMoves(e: Env, s: State)
    requires s.calls.closeCall.Some? ==> Issued(s.calls.closeCall.value) && s.calls.closeCall.value.run.None?
    ensures ClosedOrMoved(s, WriteDeferredClose(e, s))
  {
  }

  lemma CloseFree(pending: map<nat, Request>)
    ensures !CloseBlocked(pending) ==> NoClose(pending) && NoBlocking(pending)
  {
    if !CloseBlocked(pending) {
      assert forall id :: id in pending ==> !BlocksClose(pending[id]);
    }
  }

  lemma CloseSentCore(s: State, t: State, r: Request)
    requires Core(s) && !s.wire.closed && s.calls.closeCall == Some(r) && NoClose(s.calls.pending) && NoBlocking(s.calls.pending)
    requires t.runs == s.runs && t.wire.closed == s.wire.closed && (t.wire.stopping ==> t.wire.cut)
    requires t.entry == s.entry || t.entry == s.entry.(claimed := true)
    requires var c := s.calls.(nextOut := s.calls.nextOut + 1);
      t.calls == c || t.calls == c.(pending := c.pending[c.nextOut := r])
    requires t.wire.sent == s.wire.sent || t.wire.sent == s.wire.sent + [Call(s.calls.nextOut + 1, r)]
    ensures Core(t)
  {
    CallAdded(s.calls, r);
    SentMore(s.wire.sent, s.calls.nextOut, true, Call(s.calls.nextOut + 1, r));
    assert CallsOk(t.calls);
    assert WireOk(t);
  }

  lemma DeferredCloseCore(e: Env, s: State)
    requires Core(s) && !s.wire.closed
    ensures Core(WriteDeferredClose(e, s))
  {
    CloseFree(s.calls.pending);
    if s.calls.closeCall.Some? && !s.wire.stopping && !CloseBlocked(s.calls.pending) {
      CloseSentCore(s, WriteDeferredClose(e, s), s.calls.closeCall.value);
    }
  }

  /** What a step leaves alone, and what of it the worker can notice. */
  predicate Kept(s: State, t: State) {
    && Bounded(ViewOf(t)) && t.wire.closed == s.wire.closed
    && t.entry.peer == s.entry.peer && t.entry.identity == s.entry.identity && t.entry.attached == s.entry.attached
    && (if t.wire.stopping then t.wire.sent == s.wire.sent else Moved(ViewOf(s), ViewOf(t)))
  }

  lemma AnswerKept(s: State, r: Request, a: Answer)
    requires Bounded(ViewOf(s)) && !s.wire.stopping
    ensures Kept(s, AnswerRouted(s, r, a))
  {
  }

  lemma AnswerCore(s: State, r: Request, a: Answer)
    requires Core(s)
    ensures Core(AnswerRouted(s, r, a))
  {
  }

  /** The state in which the close is first attempted. */
  function CloseTaken(s: State, r: Request): State {
    var s1 := SettleDeferred(s, BUSY);
    s1.(calls := s1.calls.(closeCall := Some(r)),
        clock := s.clock.(armed := false, closeTimer := Some(s.clock.now + CLOSE_BOUND)))
  }

  lemma CloseTakenCore(s: State, r: Request)
    requires Core(s) && !s.wire.closed && !s.entry.peer
    requires s.calls.closeCall.None? && r.verb == Close && Issued(r)
    ensures Core(CloseTaken(s, r))
  {
    var t := CloseTaken(s, r);
    assert t.calls == s.calls.(deferred := [], closeCall := Some(r)) && CallsOk(t.calls);
    assert t.wire == s.wire && WireOk(t);
    assert t.runs == s.runs && t.entry == s.entry;
  }

  lemma BeginCloseCore(e: Env, s: State, r: Request)
    requires Core(s) && !s.wire.closed && !s.entry.peer
    requires s.calls.closeCall.None? && r.verb == Close && Issued(r)
    ensures Core(BeginClose(e, s, r))
  {
    hide CallsOk, WireOk, RunsOk, WriteDeferredClose, GivenUp;
    CloseTakenCore(s, r);
    DeferredCloseCore(e, CloseTaken(s, r));
  }

  lemma BeginCloseKept(e: Env, s: State, r: Request)
    requires Bounded(ViewOf(s)) && !s.wire.stopping && r.verb == Close && Issued(r)
    ensures Kept(s, BeginClose(e, s, r)) && BeginClose(e, s, r).runs == s.runs
  {
    var s2 := CloseTaken(s, r);
    assert Still(ViewOf(s), ViewOf(s2));
    DeferredCloseMoves(e, s2);
  }

  lemma CapacityMeaning(s: State)
    requires Bounded(ViewOf(s))
    ensures HasRunCapacity(s) <==> s.runs.sequence - s.runs.acknowledged + |s.calls.deferred| < MAX_OPERATIONS
  {
  }

  lemma WriteKept(e: Env, s: State, r: Request)
    requires Bounded(ViewOf(s)) && !s.wire.stopping && r.run.None? && Issued(r)
    ensures Kept(s, Write(e, s, r))
  {
    WriteMoves(e, s, r);
  }

  lemma LaunchKept(e: Env, s: State, r: Request)
    requires Bounded(ViewOf(s)) && !s.wire.stopping && HasRunCapacity(s)
    requires s.runs.current.None? && Issued(r.(run := Some(NextRun(e, s.runs))))
    ensures Kept(s, Launch(e, s, r))
  {
    CapacityMeaning(s);
    LaunchMoves(e, s, r);
    LaunchStays(e, s, r);
    hide Launch, Bounded, Moved, ViewOf, HasRunCapacity;
  }

  lemma LaunchStays(e: Env, s: State, r: Request)
    ensures var t := Launch(e, s, r);
      && t.wire.closed == s.wire.closed && t.wire.stopping == s.wire.stopping
      && t.entry.peer == s.entry.peer && t.entry.identity == s.entry.identity && t.entry.attached == s.entry.attached
  {
  }

  /** Issuing any request keeps the session within capacity. */
  lemma IssueKept(e: Env, s: State, r0: Request)
    requires RunsOk(s) && Bounded(ViewOf(s)) && !s.wire.stopping && Issuable(r0)
    requires s.entry.peer ==> r0.verb == Deliver
    requires r0.scheduled ==> Seeds(s, r0)
    ensures Kept(s, Issue(e, s, r0))
  {
    var r := Normalized(r0);
    if Refusal(s, r0) != 0 {
      AnswerKept(s, r, Refused(Refusal(s, r0)));
    } else if r.verb == Close {
      BeginCloseKept(e, s, r);
    } else if r.verb == Execute || Seeds(s, r) {
      LaunchKept(e, s, r);
    } else {
      WriteKept(e, s, r);
    }
  }

  /** Issuing any request keeps the session consistent. */
  lemma IssueCore(e: Env, s: State, r0: Request)
    requires Core(s) && !s.wire.closed && Issuable(r0)
    requires r0.collect ==> NoClose(s.calls.pending)
    requires s.entry.peer ==> r0.verb == Deliver
    requires r0.scheduled ==> Seeds(s, r0)
    ensures Core(Issue(e, s, r0))
  {
    var r := Normalized(r0);
    if Refusal(s, r0) != 0 {
      AnswerCore(s, r, Refused(Refusal(s, r0)));
    } else if r.verb == Close {
      BeginCloseCore(e, s, r);
    } else if r.verb == Execute || Seeds(s, r) {
      LaunchCore(e, s, r);
    } else {
      WriteCore(e, s, r);
    }
  }

  lemma PoppedCore(s: State)
    requires Core(s) && s.calls.deferred != []
    ensures Core(Popped(s))
  {
    var t := Popped(s);
    assert t.calls == s.calls.(deferred := s.calls.deferred[1..]);
    assert forall i :: 0 <= i < |t.calls.deferred| ==> t.calls.deferred[i] == s.calls.deferred[i + 1];
    assert CallsOk(t.calls);
  }

  /**
    The promise behind queued_for_next_turn: when its turn comes, a queued
    delivery passes every check, so only a dead wire or an oversized frame can
    keep it from seeding a run.
   */
  lemma PromiseIsKept(s: State)
    requires Core(s) && Bounded(ViewOf(s)) && !s.wire.closed && s.runs.current.None? && s.calls.deferred != []
    ensures Refusal(Popped(s), s.calls.deferred[0]) == 0 && Seeds(Popped(s), s.calls.deferred[0])
    ensures forall e :: Issue(e, Popped(s), s.calls.deferred[0]) == Launch(e, Popped(s), s.calls.deferred[0])
  {
    var t := Popped(s);
    assert Promised(s.calls.deferred[0]);
    assert |t.calls.pending| + |t.calls.deferred| < MAX_PENDING_CALLS;
    CapacityMeaning(t);
  }

  /** A launch either starts the run or leaves the worker nothing to notice. */
  lemma LaunchOutcome(e: Env, s: State, r: Request)
    requires s.runs.current.None? && Bounded(ViewOf(s)) && HasRunCapacity(s)
    requires Issued(r.(run := Some(NextRun(e, s.runs))))
    ensures Launch(e, s, r).runs.current.None? ==> Still(ViewOf(s), ViewOf(Launch(e, s, r)))
    ensures Launch(e, s, r).wire.stopping == s.wire.stopping
  {
  }

  lemma DrainStep(e: Env, s: State)
    requires Core(s) && Bounded(ViewOf(s)) && !s.wire.stopping && s.runs.current.None? && s.calls.deferred != []
    ensures var t := Issue(e, Popped(s), s.calls.deferred[0]);
      Core(t) && Kept(Popped(s), t) && !t.wire.stopping &&
      (t.runs.current.None? ==> Still(ViewOf(s), ViewOf(t)))
  {
    PromiseIsKept(s);
    PoppedCore(s);
    var r := s.calls.deferred[0];
    assert Promised(r);
    IssueCore(e, Popped(s), r);
    IssueKept(e, Popped(s), r);
    LaunchOutcome(e, Popped(s), r);
  }

  lemma KeptAfterStill(s: State, m: State, t: State)
    requires Still(ViewOf(s), ViewOf(m)) && Kept(m, t)
    requires m.wire.closed == s.wire.closed && m.entry.peer == s.entry.peer
    requires m.entry.identity == s.entry.identity && m.entry.attached == s.entry.attached
    ensures Kept(s, t)
  {
    if !t.wire.stopping {
      StillMoved(ViewOf(s), ViewOf(m), ViewOf(t));
    }
  }

  /** Draining the queue ends with a run under way or with the queue empty. */
  lemma {:induction false} StartDeferredKept(e: Env, s: State)
    requires Core(s) && Bounded(ViewOf(s)) && !s.wire.stopping
    ensures Inv(StartDeferred(e, s)) && Kept(s, StartDeferred(e, s)) && !StartDeferred(e, s).wire.stopping
    decreases |s.calls.deferred|
  {
    if s.runs.current.None? && s.calls.deferred != [] {
      DrainStep(e, s);
      var m := Issue(e, Popped(s), s.calls.deferred[0]);
      StartDeferredKept(e, m);
      if m.runs.current.None? {
        KeptAfterStill(s, m, StartDeferred(e, m));
      } else {
        assert StartDeferred(e, s) == m;
        assert Still(ViewOf(s), ViewOf(Popped(s)));
        KeptAfterStill(s, Popped(s), m);
      }
    }
  }

  /** The only answers a worker may give to a call that carries a run. */
  predicate RunReply(r: Request, response: Response) {
    && (r.verb == Execute ==> response == Succeeded(r.run))
    && (r.verb == Deliver && r.run.Some? ==> response.Succeeded? || response == Failed(INTERNAL))
    && !response.Undecodable?
  }

  /** What answering one call changes, beyond issuing another. */
  predicate Responded(v: View, u: View, r: Request, response: Response) {
    || Moved(v, u)
    || u == v.(promised := v.promised + 1)
    || (u == v.(acknowledged := u.acknowledged) && r.verb == Ack && response.Succeeded? && r.ref.Some?
        && !r.ref.value.Malformed? && v.generation == Some(r.ref.value.id.generation)
        && u.acknowledged == r.ref.value.id.sequence)
  }

  predicate Answered(s: State, t: State, r: Request, response: Response) {
    && Bounded(ViewOf(t)) && t.wire.closed == s.wire.closed
    && t.entry.peer == s.entry.peer && t.entry.identity == s.entry.identity && t.entry.attached == s.entry.attached
    && (if t.wire.stopping then t.wire.sent == s.wire.sent else Responded(ViewOf(s), ViewOf(t), r, response))
  }

  lemma RetainKept(e: Env, s: State, r: Request)
    requires Inv(s) && Bounded(ViewOf(s)) && !s.wire.stopping && Issued(r) && r.verb == Deliver && r.run.None?
    requires !s.entry.peer && s.calls.closeCall.None? && |s.calls.pending| + |s.calls.deferred| < MAX_PENDING_CALLS
    ensures Inv(Retain(e, s, r)) && Answered(s, Retain(e, s, r), r, Failed(NOT_RUNNING))
  {
    if s.runs.current.None? {
      IssueCore(e, s, r);
      IssueKept(e, s, r);
    } else {
      CapacityMeaning(s);
      AnswerCore(s, r, Refused(BUSY));
      AnswerKept(s, r, Refused(BUSY));
      if HasRunCapacity(s) {
        var t := Retain(e, s, r);
        assert t.calls == s.calls.(deferred := s.calls.deferred + [r.(scheduled := true)]);
        assert CallsOk(t.calls);
      }
    }
  }

  function Removed(s: State, id: nat): State { s.(calls := s.calls.(pending := s.calls.pending - {id})) }

  lemma RemovedInv(s: State, id: nat)
    requires Inv(s) && id in s.calls.pending
    ensures var t := Removed(s, id);
      && Inv(t) && (NoClose(t.calls.pending) ==> |t.calls.pending| + |t.calls.deferred| < MAX_PENDING_CALLS || s.calls.closeCall.Some?)
      && (s.calls.pending[id].verb == Execute && s.calls.pending[id].collect ==> NoClose(t.calls.pending))
  {
    PendingLess(s.calls.pending, id);
    var t := Removed(s, id);
    assert forall k :: k in t.calls.pending ==> k in s.calls.pending && t.calls.pending[k] == s.calls.pending[k];
    assert s.calls.pending[id].verb != Close && !NoClose(s.calls.pending) ==> !NoClose(t.calls.pending) by {
      if s.calls.pending[id].verb != Close && !NoClose(s.calls.pending) {
        var k :| k in s.calls.pending && s.calls.pending[k].verb == Close;
        assert k in t.calls.pending;
      }
    }
    assert CallsOk(t.calls);
  }

  lemma StopKeeps(s: State)
    requires Inv(s) && Bounded(ViewOf(s)) && !s.wire.closed
    ensures Inv(OrderlyStop(s)) && Inv(CloseWire(s)) && Inv(HardStop(s))
    ensures Kept(s, OrderlyStop(s)) && Kept(s, HardStop(s))
    ensures !s.wire.stopping ==> Kept(s, CloseWire(s))
  {
  }

  /** A failure that names no run, or leaves the run's fate open, is only passed on. */
  lemma FailureKept(e: Env, s: State, r: Request, code: int)
    requires Inv(s) && Bounded(ViewOf(s)) && !s.wire.stopping
    requires r.run.None? || (r.verb != Execute && code == INTERNAL)
    ensures FailResponse(e, s, r, code) == AnswerRouted(s, r, Refused(code))
    ensures Inv(FailResponse(e, s, r, code)) && Kept(s, FailResponse(e, s, r, code))
  {
    AnswerCore(s, r, Refused(code));
    AnswerKept(s, r, Refused(code));
  }

  predicate Settles(s: State, t: State, r: Request, response: Response) { Inv(t) && Answered(s, t, r, response) }

  lemma KeptSettles(s: State, t: State, r: Request, response: Response)
    requires Inv(t) && Kept(s, t)
    ensures Settles(s, t, r, response)
  {
  }

  lemma AcknowledgedKept(s: State, r: Request, ref: Option<RunId>)
    requires Inv(s) && Bounded(ViewOf(s)) && !s.wire.stopping && r.verb == Ack
    ensures Settles(s, AnswerRouted(s.(runs := RecordAcknowledgment(s.runs, r.ref)), r, Done), r, Succeeded(ref))
  {
    var m := s.(runs := RecordAcknowledgment(s.runs, r.ref));
    assert RunsOk(m) && m.calls == s.calls && m.wire == s.wire && m.entry == s.entry;
    AnswerCore(m, r, Done);
  }

  lemma CollectKept(e: Env, s: State, r: Request)
    requires Inv(s) && Bounded(ViewOf(s)) && !s.wire.stopping && !s.entry.peer
    requires r.verb == Wait && r.run.None? && r.collect && !r.scheduled && NoClose(s.calls.pending)
    ensures Inv(Issue(e, s, r)) && Kept(s, Issue(e, s, r))
  {
    IssueCore(e, s, r);
    IssueKept(e, s, r);
    CollectorStays(e, s, r);
  }

  lemma CollectorStays(e: Env, s: State, r: Request)
    requires r.verb == Wait && r.run.None?
    ensures Issue(e, s, r).runs == s.runs && Issue(e, s, r).calls.deferred == s.calls.deferred
  {
  }

  lemma SettleResponseKept(e: Env, s: State, r: Request, response: Response)
    requires Inv(s) && Bounded(ViewOf(s)) && !s.wire.stopping && Issued(r) && RunReply(r, response)
    requires r.collect && r.verb == Execute ==> NoClose(s.calls.pending) && !r.scheduled
    requires s.entry.peer ==> r.verb == Deliver
    requires r.verb == Deliver && s.calls.closeCall.None? ==> |s.calls.pending| + |s.calls.deferred| < MAX_PENDING_CALLS
    ensures Settles(s, SettleResponse(e, s, r, response), r, response)
  {
    var t := SettleResponse(e, s, r, response);
    if r.destination != s.entry.identity || !s.entry.attached {
      AnswerCore(s, r, Refused(NOT_CONNECTED));
      AnswerKept(s, r, Refused(NOT_CONNECTED));
      KeptSettles(s, t, r, response);
    } else if r.verb == Close {
      StopKeeps(s);
      KeptSettles(s, t, r, response);
    } else if Retained(s, r, response) {
      RetainKept(e, s, r);
    } else if response.Failed? {
      FailureKept(e, s, r, response.code);
      KeptSettles(s, t, r, response);
    } else if r.verb == Execute && r.collect {
      CollectKept(e, s, Collector(r, response.ref.value));
      KeptSettles(s, t, r, response);
    } else if r.verb == Ack {
      AcknowledgedKept(s, r, response.ref);
    } else {
      AnswerCore(s, r, Done);
      AnswerKept(s, r, Done);
      KeptSettles(s, t, r, response);
    }
  }

  lemma AckSent(sent: seq<Down>, nextOut: nat, closing: bool, call: nat)
    requires SentOk(sent, nextOut, closing)
    ensures SentOk(sent + [ReadyAck(call)], nextOut, closing)
  {
  }

  lemma TurnAckedCore(e: Env, s: State, call: nat, id: RunId, done: bool)
    requires Inv(s) && ReadyMatches(s, id)
    ensures Core(TurnAcked(e, s, call, done))
  {
    var t := TurnAcked(e, s, call, done);
    AckSent(s.wire.sent, s.calls.nextOut, s.calls.closeCall.Some?, call);
    assert t.calls == s.calls;
    assert WireOk(t);
    assert RunsOk(t) && FlagsOk(t);
  }

  /** A matching turn.ready: its acknowledgement first, then whatever the queue starts. */
  lemma TurnReadyKept(e: Env, s: State, call: nat, id: RunId, done: bool)
    requires Inv(s) && Bounded(ViewOf(s)) && !s.wire.stopping && ReadyMatches(s, id)
    ensures var m := TurnAcked(e, s, call, done);
      var t := TurnReady(e, s, call, id, done);
      && Inv(t) && !t.wire.stopping && Kept(m, t)
      && Bounded(ViewOf(m)) && !m.wire.stopping && m.wire.closed == s.wire.closed
  {
    TurnAckedCore(e, s, call, id, done);
    StartDeferredKept(e, TurnAcked(e, s, call, done));
  }

  lemma WriteRuns(e: Env, s: State, r: Request)
    requires r.run.None?
    ensures Write(e, s, r).runs == s.runs
  {
  }

  lemma DeferredCloseRuns(e: Env, s: State)
    ensures WriteDeferredClose(e, s).runs == s.runs
  {
  }

  /** While a run is under way, issuing another request leaves the reservation alone. */
  lemma IssueWhileRunning(e: Env, s: State, r0: Request)
    requires RunsOk(s) && !s.entry.peer && s.runs.current.Some? && Issuable(r0)
    ensures Issue(e, s, r0).runs == s.runs
  {
    hide Write, WriteDeferredClose, Launch, GivenUp;
    var r := Normalized(r0);
    if Refusal(s, r0) == 0 {
      if r.verb == Close {
        DeferredCloseRuns(e, CloseTaken(s, r));
      } else {
        WriteRuns(e, s, r);
      }
    }
  }

  lemma IssueInv(e: Env, s: State, r0: Request)
    requires Inv(s) && !s.wire.closed && Issuable(r0)
    requires r0.collect ==> NoClose(s.calls.pending)
    requires s.entry.peer ==> r0.verb == Deliver
    requires r0.scheduled ==> Seeds(s, r0)
    ensures Inv(Issue(e, s, r0))
  {
    hide Issue, CallsOk, WireOk;
    IssueCore(e, s, r0);
    if s.calls.deferred != [] {
      IssueWhileRunning(e, s, r0);
    }
  }

  lemma DisconnectedInv(s: State)
    requires Inv(s) && Bounded(ViewOf(s))
    ensures Inv(ConnectionClosed(s)) && Bounded(ViewOf(ConnectionClosed(s)))
    ensures ConnectionClosed(s).wire.sent == s.wire.sent && ConnectionClosed(s).wire.closed
    ensures ConnectionClosed(s).entry.peer == s.entry.peer
  {
    hide GivenUp, Settled;
    var t := ConnectionClosed(s);
    if !s.wire.closed {
      assert t.calls == s.calls.(deferred := [], pending := map[]);
      assert CallsOk(t.calls);
    }
  }
}
