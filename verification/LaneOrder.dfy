/**
  The order in which a worker sees a blocking run and the close that waits for
  it: the execute, then the read of its result, and only then the close.
 */
module LaneOrder {
  import opened Common
  import opened RunIds
  import opened SessionModel
  import opened SessionProofs
  import opened WorkerModel
  import opened LaneLink

  predicate Blocking(f: Down) { f.Call? && f.request.verb == Execute && f.request.collect && f.request.run.Some? }

  /** g is the read that collects the result of the blocking run f. */
  predicate Collects(f: Down, g: Down) {
    && Blocking(f) && g.Call? && g.request.verb == Wait && g.request.ref == Some(Exact(f.request.run.value)) && g.request.run.None?
    && g.request.ticket == f.request.ticket && g.request.destination == f.request.destination
  }

  ghost predicate ReadAfter(sent: seq<Down>, i: nat, hi: nat)
    requires i < |sent| && hi <= |sent|
  {
    exists j :: i < j < hi && Collects(sent[i], sent[j])
  }

  predicate Waiting(pending: map<nat, Request>, f: Down) { f.Call? && f.id in pending && pending[f.id] == f.request }

  /** Every blocking run on the wire is still pending or already followed by its read. */
  ghost predicate ReadsOk(sent: seq<Down>, cut: bool, pending: map<nat, Request>) {
    forall i :: 0 <= i < |sent| && Blocking(sent[i]) ==> cut || Waiting(pending, sent[i]) || ReadAfter(sent, i, |sent|)
  }

  ghost predicate CloseLast(sent: seq<Down>) {
    forall i, k :: 0 <= i < k < |sent| && Blocking(sent[i]) && CloseFrame(sent[k]) ==> ReadAfter(sent, i, k)
  }

  predicate Numbers(sent: seq<Down>, c: Calls) {
    && (forall i :: 0 <= i < |sent| && sent[i].Call? ==> sent[i].id <= c.nextOut)
    && (forall id :: id in c.pending ==> id <= c.nextOut)
  }

  predicate Addressed(c: Calls, identity: nat) {
    && (forall id :: id in c.pending ==> c.pending[id].destination == identity)
    && (forall j :: 0 <= j < |c.deferred| ==> c.deferred[j].destination == identity)
    && (c.closeCall.Some? ==> c.closeCall.value.destination == identity && c.closeCall.value.verb == Close)
  }

  predicate ClaimOk(s: State) { s.entry.claimed && !s.wire.closed ==> s.wire.cut || !NoClose(s.calls.pending) }

  ghost predicate OrderOk(s: State) {
    && ReadsOk(s.wire.sent, s.wire.cut, s.calls.pending) && CloseLast(s.wire.sent)
    && Numbers(s.wire.sent, s.calls) && Addressed(s.calls, s.entry.identity) && ClaimOk(s)
  }

  lemma ReadStays(sent: seq<Down>, f: Down, i: nat, hi: nat)
    requires i < |sent| && hi <= |sent| && ReadAfter(sent, i, hi)
    ensures ReadAfter(sent + [f], i, hi) && ReadAfter(sent + [f], i, |sent| + 1)
  {
    var j :| i < j < hi && Collects(sent[i], sent[j]);
    assert (sent + [f])[j] == sent[j] && (sent + [f])[i] == sent[i];
  }

  /** One more frame: a close is only appended once every blocking run has been read. */
  lemma AppendReads(sent: seq<Down>, f: Down, pending: map<nat, Request>, more: map<nat, Request>)
    requires ReadsOk(sent, false, pending) && CloseLast(sent)
    requires forall id :: id in pending ==> id in more && more[id] == pending[id]
    requires Blocking(f) ==> Waiting(more, f)
    requires CloseFrame(f) ==> NoBlocking(pending)
    ensures ReadsOk(sent + [f], false, more) && CloseLast(sent + [f])
  {
    var q := sent + [f];
    assert forall i :: 0 <= i < |sent| ==> q[i] == sent[i];
    forall i | 0 <= i < |q| && Blocking(q[i])
      ensures Waiting(more, q[i]) || ReadAfter(q, i, |q|)
    {
      if i < |sent| && !Waiting(pending, sent[i]) {
        ReadStays(sent, f, i, |sent|);
      }
    }
    forall i, k | 0 <= i < k < |q| && Blocking(q[i]) && CloseFrame(q[k])
      ensures ReadAfter(q, i, k)
    {
      if k < |sent| {
        ReadStays(sent, f, i, k);
      } else {
        assert !Waiting(pending, sent[i]);
        ReadStays(sent, f, i, |sent|);
      }
    }
  }

  /** The read of call id's result takes over from the call. */
  lemma CollectReads(sent: seq<Down>, pending: map<nat, Request>, id: nat, n: nat, more: map<nat, Request>)
    requires ReadsOk(sent, false, pending) && CloseLast(sent) && id in pending
    requires pending[id].verb == Execute && pending[id].collect && pending[id].run.Some?
    requires forall k :: k in pending && k != id ==> k in more && more[k] == pending[k]
    ensures var q := sent + [Call(n, Collector(pending[id], pending[id].run.value))];
      ReadsOk(q, false, more) && CloseLast(q)
  {
    var f := Call(n, Collector(pending[id], pending[id].run.value));
    var q := sent + [f];
    assert forall i :: 0 <= i < |sent| ==> q[i] == sent[i];
    forall i | 0 <= i < |q| && Blocking(q[i])
      ensures Waiting(more, q[i]) || ReadAfter(q, i, |q|)
    {
      if ReadAfter(sent, i, |sent|) {
        ReadStays(sent, f, i, |sent|);
      } else if sent[i].id == id {
        assert Collects(q[i], q[|sent|]);
      }
    }
    forall i, k | 0 <= i < k < |q| && Blocking(q[i]) && CloseFrame(q[k])
      ensures ReadAfter(q, i, k)
    {
      ReadStays(sent, f, i, k);
    }
  }

  /** Nothing is written; tables and flags only shrink towards the end of the session. */
  predicate Resting(s: State, u: State) {
    && u.wire.sent == s.wire.sent && u.calls.pending == s.calls.pending && u.calls.nextOut >= s.calls.nextOut
    && (s.wire.cut ==> u.wire.cut) && u.wire.closed == s.wire.closed
    && u.entry.claimed == s.entry.claimed && u.entry.identity == s.entry.identity
    && u.calls.closeCall == s.calls.closeCall && (u.calls.deferred == s.calls.deferred || u.calls.deferred == [])
  }

  lemma RestKeeps(s: State, u: State)
    requires OrderOk(s) && Resting(s, u)
    ensures OrderOk(u)
  {
    hide CloseLast, Blocking;
  }

  lemma RefuseRests(s: State, id: Option<RunId>)
    ensures Resting(s, RefuseRun(s, id))
  {
  }

  lemma AnswerRests(s: State, r: Request, a: Answer)
    ensures Resting(s, AnswerRouted(s, r, a))
  {
  }

  lemma RestTwice(s: State, m: State, u: State)
    requires Resting(s, m) && Resting(m, u)
    ensures Resting(s, u)
  {
  }

  /** A call is now pending, and on the wire unless that is cut. */
  lemma WroteOrder(s: State, u: State, r: Request)
    requires OrderOk(s) && r.destination == s.entry.identity
    requires r.verb == Close ==> NoBlocking(s.calls.pending)
    requires u.calls == s.calls.(nextOut := s.calls.nextOut + 1, pending := s.calls.pending[s.calls.nextOut + 1 := r])
    requires u.wire.cut == s.wire.cut && u.wire.closed == s.wire.closed && u.entry.identity == s.entry.identity
    requires u.wire.sent == if s.wire.cut then s.wire.sent else s.wire.sent + [Call(s.calls.nextOut + 1, r)]
    requires u.entry.claimed == (s.entry.claimed || r.verb == Close)
    ensures OrderOk(u)
  {
    var n := s.calls.nextOut + 1;
    assert forall id :: id in s.calls.pending ==> u.calls.pending[id] == s.calls.pending[id];
    assert u.calls.pending[n] == r;
    if !NoClose(s.calls.pending) {
      var k :| k in s.calls.pending && s.calls.pending[k].verb == Close;
      assert u.calls.pending[k].verb == Close;
    }
    if !s.wire.cut {
      AppendReads(s.wire.sent, Call(n, r), s.calls.pending, u.calls.pending);
    }
  }

  lemma WriteOrder(e: Env, s: State, r: Request)
    requires OrderOk(s) && r.destination == s.entry.identity && r.verb != Close
    ensures OrderOk(Write(e, s, r))
  {
    hide RefuseRun, Noted, OrderOk;
    var id := s.calls.nextOut + 1;
    var s1 := s.(calls := s.calls.(nextOut := id));
    var s2 := s1.(wire := Send(e, s.wire, Call(id, r)));
    var u := Write(e, s, r);
    if (CarriesBody(r.verb) && !e.fits(id)) || !e.room(s.wire.attempts) {
      var m := if CarriesBody(r.verb) && !e.fits(id) then s1 else s2;
      RefuseRests(m, r.run);
      AnswerRests(RefuseRun(m, r.run), r, Refused(NOT_CONNECTED));
      RestTwice(s, m, RefuseRun(m, r.run));
      RestTwice(s, RefuseRun(m, r.run), u);
      RestKeeps(s, u);
    } else {
      WroteOrder(s, u, r);
    }
  }

  lemma CloseOrder(e: Env, s: State)
    requires OrderOk(s)
    ensures OrderOk(WriteDeferredClose(e, s))
  {
    hide ReadsOk, CloseLast, Numbers, ClaimOk;
    CloseFree(s.calls.pending);
    var u := WriteDeferredClose(e, s);
    if s.calls.closeCall.Some? && !s.wire.closed && !s.wire.stopping && !CloseBlocked(s.calls.pending) && e.room(s.wire.attempts) {
      WroteOrder(s, u, s.calls.closeCall.value);
    } else {
      RestKeeps(s, u);
    }
  }

  lemma BeginCloseOrder(e: Env, s: State, r: Request)
    requires OrderOk(s) && r.destination == s.entry.identity && r.verb == Close
    ensures OrderOk(BeginClose(e, s, r))
  {
    hide ReadsOk, CloseLast, WriteDeferredClose, GivenUp;
    assert OrderOk(CloseTaken(s, r));
    CloseOrder(e, CloseTaken(s, r));
  }

  lemma IssueOrder(e: Env, s: State, r0: Request)
    requires OrderOk(s) && r0.destination == s.entry.identity
    ensures OrderOk(Issue(e, s, r0))
  {
    hide OrderOk, Write, BeginClose, Refusal, Noted;
    var r := Normalized(r0);
    if Refusal(s, r0) != 0 {
      AnswerRests(s, r, Refused(Refusal(s, r0)));
      RestKeeps(s, Issue(e, s, r0));
    } else if r.verb == Close {
      BeginCloseOrder(e, s, r);
    } else if r.verb == Execute || Seeds(s, r) {
      var s1 := ReserveRun(e, s);
      var s2 := s1.(runs := s1.runs.(fromTrace := r.verb == Deliver && r.traceCopy,
                                     fromCompletion := r.verb == Deliver && r.completion));
      RestKeeps(s, s2);
      WriteOrder(e, s2, r.(run := s1.runs.current));
    } else {
      WriteOrder(e, s, r);
    }
  }

  lemma PoppedOrder(s: State)
    requires OrderOk(s) && s.calls.deferred != []
    ensures OrderOk(Popped(s)) && s.calls.deferred[0].destination == s.entry.identity
  {
    hide ReadsOk, CloseLast, NoClose;
    assert forall j :: 0 <= j < |Popped(s).calls.deferred| ==> Popped(s).calls.deferred[j] == s.calls.deferred[j + 1];
  }

  lemma {:induction false} StartDeferredOrder(e: Env, s: State)
    requires OrderOk(s)
    ensures OrderOk(StartDeferred(e, s))
    decreases |s.calls.deferred|
  {
    hide OrderOk, Issue;
    if s.runs.current.None? && s.calls.deferred != [] {
      PoppedOrder(s);
      IssueOrder(e, Popped(s), s.calls.deferred[0]);
      StartDeferredOrder(e, Issue(e, Popped(s), s.calls.deferred[0]));
    }
  }

  // ---- responses ----

  lemma RemovedOrder(s: State, id: nat)
    requires OrderOk(s) && id in s.calls.pending && !BlocksClose(s.calls.pending[id])
    ensures OrderOk(Removed(s, id))
  {
    var u := Removed(s, id);
    assert forall k :: k in u.calls.pending ==> k in s.calls.pending && u.calls.pending[k] == s.calls.pending[k];
    if !NoClose(s.calls.pending) {
      var k :| k in s.calls.pending && s.calls.pending[k].verb == Close;
      assert u.calls.pending[k].verb == Close;
    }
    assert forall i :: 0 <= i < |s.wire.sent| && Blocking(s.wire.sent[i]) && Waiting(s.calls.pending, s.wire.sent[i]) ==>
      s.wire.sent[i].id != id;
    hide CloseLast;
  }

  /** On a cut wire the order of what was written is settled. */
  lemma CutOrder(s: State, u: State)
    requires OrderOk(s) && u.wire.cut && u.wire.sent == s.wire.sent && Numbers(u.wire.sent, u.calls) && Addressed(u.calls, u.entry.identity)
    ensures OrderOk(u)
  {
    hide CloseLast, Numbers, Addressed;
  }

  lemma CloseAnswerOrder(e: Env, s: State, id: nat, response: Response)
    requires OrderOk(s) && id in s.calls.pending && s.calls.pending[id].verb == Close && s.entry.attached
    ensures OrderOk(ReceiveResponse(e, s, id, response))
  {
    var u := ReceiveResponse(e, s, id, response);
    assert forall k :: k in u.calls.pending ==> k in s.calls.pending && u.calls.pending[k] == s.calls.pending[k];
    CutOrder(s, u);
  }

  /** The read that follows a blocking run passes every check. */
  lemma CollectorAdmitted(s: State, id: nat)
    requires Inv(s) && OrderOk(s) && !s.wire.closed && !s.wire.cut && id in s.calls.pending
    requires s.calls.pending[id].verb == Execute && s.calls.pending[id].collect && s.calls.pending[id].run.Some?
    ensures Refusal(Removed(s, id), Collector(s.calls.pending[id], s.calls.pending[id].run.value)) == 0
  {
    hide ReadsOk, CloseLast, Numbers, Addressed, WireOk, RunsOk;
    PendingLess(s.calls.pending, id);
    assert !NoBlocking(s.calls.pending);
    assert NoClose(s.calls.pending);
  }

  /** What issuing a read does: refused, written, or lost with the wire. */
  lemma ReadIssued(e: Env, m: State, r: Request)
    requires r.verb == Wait && r.run.None?
    ensures var u := Issue(e, m, r);
      && u.entry == m.entry && u.wire.closed == m.wire.closed && (m.wire.cut ==> u.wire.cut)
      && (u.wire.cut ==> u.wire.sent == m.wire.sent)
      && (!u.wire.cut && Refusal(m, r) == 0 ==> u.wire.sent == m.wire.sent + [Call(m.calls.nextOut + 1, r)])
      && (u.calls == m.calls || u.calls == m.calls.(nextOut := m.calls.nextOut + 1) || u.calls == Asked(m.calls, r))
      && (!u.wire.cut && Refusal(m, r) == 0 ==> u.calls == Asked(m.calls, r))
  {
    hide Refusal, RefuseRun;
    RefuseNone(m.(calls := m.calls.(nextOut := m.calls.nextOut + 1), wire := Send(e, m.wire, Call(m.calls.nextOut + 1, r))));
  }

  lemma RefuseNone(s: State)
    ensures RefuseRun(s, None) == s
  {
  }

  function Asked(c: Calls, r: Request): Calls { c.(nextOut := c.nextOut + 1, pending := c.pending[c.nextOut + 1 := r]) }

  lemma AskedShape(sent: seq<Down>, c: Calls, id: nat, r: Request, identity: nat)
    requires Numbers(sent, c) && Addressed(c, identity) && r.destination == identity && r.verb != Close
    ensures var m := c.(pending := c.pending - {id});
      forall d :: d == m || d == m.(nextOut := m.nextOut + 1) || d == Asked(m, r) ==> Numbers(sent, d) && Addressed(d, identity)
    ensures Numbers(sent + [Call(c.nextOut + 1, r)], Asked(c.(pending := c.pending - {id}), r))
  {
  }

  lemma CollectOrder(e: Env, s: State, id: nat)
    requires Inv(s) && OrderOk(s) && !s.wire.closed && id in s.calls.pending
    requires s.calls.pending[id].verb == Execute && s.calls.pending[id].collect && s.calls.pending[id].run.Some?
    ensures OrderOk(Issue(e, Removed(s, id), Collector(s.calls.pending[id], s.calls.pending[id].run.value)))
  {
    var r := Collector(s.calls.pending[id], s.calls.pending[id].run.value);
    hide Refusal, Issue, ReadsOk, CloseLast, Inv, ClaimOk, Numbers, Addressed, Collector;
    var m := Removed(s, id);
    var u := Issue(e, m, r);
    CollectorShape(s, id);
    ReadIssued(e, m, r);
    AskedShape(s.wire.sent, s.calls, id, r, s.entry.identity);
    if u.wire.cut {
      CutOrder(s, u);
    } else {
      CollectorAdmitted(s, id);
      CollectWritten(s, id, u);
    }
  }

  lemma CollectWritten(s: State, id: nat, u: State)
    requires Inv(s) && OrderOk(s) && !s.wire.closed && !s.wire.cut && id in s.calls.pending
    requires s.calls.pending[id].verb == Execute && s.calls.pending[id].collect && s.calls.pending[id].run.Some?
    requires var r := Collector(s.calls.pending[id], s.calls.pending[id].run.value);
      && u.entry == s.entry && u.wire.closed == s.wire.closed && !u.wire.cut
      && u.wire.sent == s.wire.sent + [Call(s.calls.nextOut + 1, r)]
      && u.calls == Asked(s.calls.(pending := s.calls.pending - {id}), r)
    ensures OrderOk(u)
  {
    hide ReadsOk, CloseLast, Inv, ClaimOk, Numbers, Addressed;
    var r := Collector(s.calls.pending[id], s.calls.pending[id].run.value);
    CollectorShape(s, id);
    AskedFresh(s, id, r);
    AskedShape(s.wire.sent, s.calls, id, r, s.entry.identity);
    CollectReads(s.wire.sent, s.calls.pending, id, s.calls.nextOut + 1, u.calls.pending);
    CollectClaim(s, id, u);
  }

  lemma AskedFresh(s: State, id: nat, r: Request)
    requires Numbers(s.wire.sent, s.calls) && id in s.calls.pending
    ensures var c := s.calls.(pending := s.calls.pending - {id});
      forall k :: k in s.calls.pending && k != id ==> k in Asked(c, r).pending && Asked(c, r).pending[k] == s.calls.pending[k]
  {
  }

  lemma CollectorShape(s: State, id: nat)
    requires Addressed(s.calls, s.entry.identity) && id in s.calls.pending && s.calls.pending[id].run.Some?
    ensures var r := Collector(s.calls.pending[id], s.calls.pending[id].run.value);
      r.verb == Wait && r.run.None? && r.destination == s.entry.identity
  {
  }

  lemma CollectClaim(s: State, id: nat, u: State)
    requires ClaimOk(s) && Inv(s) && !s.wire.cut && id in s.calls.pending && !s.wire.closed
    requires s.calls.pending[id].verb == Execute && s.calls.pending[id].collect
    requires u.entry.claimed == s.entry.claimed
    ensures ClaimOk(u)
  {
    hide WireOk, RunsOk;
    assert !NoBlocking(s.calls.pending);
  }

  lemma RetainOrder(e: Env, s: State, r: Request)
    requires OrderOk(s) && r.destination == s.entry.identity
    ensures OrderOk(Retain(e, s, r))
  {
    hide ReadsOk, CloseLast, Issue, HasRunCapacity, NoClose;
    if s.runs.current.None? {
      IssueOrder(e, s, r);
    } else if !HasRunCapacity(s) {
      AnswerRests(s, r, Refused(BUSY));
      RestKeeps(s, Retain(e, s, r));
    }
  }

  lemma FailOrder(e: Env, s: State, r: Request, code: int)
    requires OrderOk(s)
    ensures OrderOk(FailResponse(e, s, r, code))
  {
    hide OrderOk, RefuseRun, Noted, StartDeferred;
    var s1 := if r.verb == Execute || code != INTERNAL then RefuseRun(s, r.run) else s;
    RefuseRests(s, r.run);
    AnswerRests(s1, r, Refused(code));
    RestTwice(s, s1, AnswerRouted(s1, r, Refused(code)));
    RestKeeps(s, AnswerRouted(s1, r, Refused(code)));
    StartDeferredOrder(e, AnswerRouted(s1, r, Refused(code)));
  }

  lemma SettleOrder(e: Env, s: State, r: Request, response: Response)
    requires OrderOk(s) && r.destination == s.entry.identity && s.entry.attached && !BlocksClose(r)
    ensures OrderOk(SettleResponse(e, s, r, response))
  {
    hide OrderOk, Retain, FailResponse, Noted, RecordAcknowledgment, Issue;
    if Retained(s, r, response) {
      RetainOrder(e, s, r);
    } else if response.Failed? {
      FailOrder(e, s, r, response.code);
    } else {
      RestKeeps(s, SettleResponse(e, s, r, response));
    }
  }

  lemma ReceiveOrder(e: Env, s: State, id: nat, response: Response)
    requires Inv(s) && OrderOk(s) && !s.wire.closed && id in s.calls.pending && RunReply(s.calls.pending[id], response)
    ensures OrderOk(ReceiveResponse(e, s, id, response))
  {
    hide OrderOk, SettleResponse, WriteDeferredClose, RunsOk, WireOk;
    var r, m := s.calls.pending[id], Removed(s, id);
    AddressedAt(s, id);
    if r.verb == Close {
      CloseAnswerOrder(e, s, id, response);
    } else if r.verb == Execute && r.collect {
      CollectOrder(e, s, id);
      BlockingAnswered(e, m, r, response);
      CloseOrder(e, SettleResponse(e, m, r, response));
    } else {
      RemovedOrder(s, id);
      SettleOrder(e, m, r, response);
    }
  }

  lemma AddressedAt(s: State, id: nat)
    requires OrderOk(s) && id in s.calls.pending
    ensures s.calls.pending[id].destination == s.entry.identity
  {
  }

  lemma BlockingAnswered(e: Env, m: State, r: Request, response: Response)
    requires r.verb == Execute && r.collect && r.run.Some? && response == Succeeded(r.run)
    requires r.destination == m.entry.identity && m.entry.attached
    ensures SettleResponse(e, m, r, response) == Issue(e, m, Collector(r, r.run.value))
  {
    hide Issue, Retain, StartDeferred, RefuseRun;
  }

  lemma ReadyOrder(e: Env, s: State, call: nat, id: RunId, done: bool)
    requires OrderOk(s)
    ensures OrderOk(TurnReady(e, s, call, id, done))
  {
    hide OrderOk, StartDeferred;
    if !ReadyMatches(s, id) {
      RestKeeps(s, HardStop(s));
    } else {
      AckOrder(e, s, call, done);
      var u := StartDeferred(e, TurnAcked(e, s, call, done));
      StartDeferredOrder(e, TurnAcked(e, s, call, done));
      RestKeeps(u, TurnReady(e, s, call, id, done));
    }
  }

  lemma AckOrder(e: Env, s: State, call: nat, done: bool)
    requires OrderOk(s)
    ensures OrderOk(TurnAcked(e, s, call, done))
  {
    hide NoClose, Blocking, Collects;
    var u := TurnAcked(e, s, call, done);
    if !u.wire.cut {
      AppendReads(s.wire.sent, ReadyAck(call), s.calls.pending, s.calls.pending) by { NotACall(call); }
    }
  }

  lemma NotACall(call: nat)
    ensures !Blocking(ReadyAck(call)) && !CloseFrame(ReadyAck(call))
  {
  }

  lemma ClosedOrder(s: State)
    requires OrderOk(s)
    ensures OrderOk(ConnectionClosed(s))
  {
    hide GivenUp, Settled;
    if !s.wire.closed {
      CutOrder(s, ConnectionClosed(s));
    }
  }

  lemma ExternalOrder(e: Env, s: State, event: Event)
    requires OrderOk(s) && External(event) && !s.entry.peer
    ensures OrderOk(Handle(e, s, event))
  {
    hide OrderOk, Issue, BeginClose, ConnectionClosed, Noted, Fresh;
    match event
    case Routed(r) =>
      AnswerRests(s, r, Refused(NOT_CONNECTED));
      RestKeeps(s, AnswerRouted(s, r, Refused(NOT_CONNECTED)));
      if r.destination == s.entry.identity { IssueOrder(e, s, r); }
    case Disconnected => ClosedOrder(s);
    case Retire(ticket) =>
      BeginCloseOrder(e, s, Request(ticket, s.entry.identity, Close, None, None, false, false, false, false));
    case CloseExpired => RestKeeps(s, Handle(e, s, event));
    case Tick(now) => RestKeeps(s, Handle(e, s, event));
  }

  // ---- every step, every run ----

  lemma ReadsOrder(e: Env, sys: System)
    requires LinkInv(sys) && OrderOk(sys.d) && sys.ur < |sys.w.out|
    ensures OrderOk(Handle(e, sys.d, EventOf(sys.w.out[sys.ur])))
  {
    hide OrderOk, StreamOk, WorkerOk, Joint, Inv, Bounded, ReceiveResponse, TurnReady, ViewOf;
    var s := sys.d;
    if !s.wire.stopping {
      match sys.w.out[sys.ur]
      case Reply(id, response) =>
        ReplyExpected(ViewOf(s), sys.w, sys.dr, sys.ur);
        OpenView(s);
        ReceiveOrder(e, s, id, response);
      case ReadyCall(id, run, done) => ReadyOrder(e, s, id, run, done);
    }
  }

  lemma OpenView(s: State)
    requires Inv(s) && !s.wire.stopping
    ensures !s.wire.closed && ViewOf(s).pending == s.calls.pending
  {
    hide CallsOk, WireOk, RunsOk;
  }

  lemma {:induction false} OrderSafety(e: Env, identity: nat, steps: seq<Step>)
    requires AllHonest(steps)
    ensures OrderOk(Run(e, Opened(identity), steps).d)
    decreases |steps|
  {
    hide OrderOk, LinkInv, Handle, Receive, Advance, Enabled;
    if steps == [] {
      StartOrder(identity);
    } else {
      var n := |steps| - 1;
      assert AllHonest(steps[..n]);
      OrderSafety(e, identity, steps[..n]);
      LaneSafety(e, identity, steps[..n]);
      var sys := Run(e, Opened(identity), steps[..n]);
      LaneOnly(sys);
      match steps[n]
      case Daemon(event) => if External(event) { ExternalOrder(e, sys.d, event); }
      case DaemonReads => if sys.ur < |sys.w.out| { ReadsOrder(e, sys); }
      case _ =>
    }
  }

  lemma LaneOnly(sys: System)
    requires LinkInv(sys)
    ensures !sys.d.entry.peer
  {
  }

  lemma StartOrder(identity: nat)
    ensures OrderOk(Opened(identity).d)
  {
  }

  /**
    In every interleaving, a blocking run that reached the wire before a close is
    followed by the read of its result before that close.
   */
  lemma ReadBeforeClose(e: Env, identity: nat, steps: seq<Step>, i: nat, k: nat)
    requires AllHonest(steps)
    requires var sent := Run(e, Opened(identity), steps).d.wire.sent;
      i < |sent| && k < |sent| && Blocking(sent[i]) && CloseFrame(sent[k])
    ensures var sent := Run(e, Opened(identity), steps).d.wire.sent;
      i < k && exists j :: i < j < k && Collects(sent[i], sent[j])
  {
    OrderSafety(e, identity, steps);
    LaneSafety(e, identity, steps);
    hide Run, Joint, StreamOk, WorkerOk, RunsOk, CallsOk, ReadsOk;
    var d := Run(e, Opened(identity), steps).d;
    assert RunFrame(d.wire.sent[i]);
    assert ReadAfter(d.wire.sent, i, k);
  }

  // ---- the deadline of a close ----

  predicate SameClose(s: State, u: State) {
    u.calls.closeCall == s.calls.closeCall && u.clock.closeTimer == s.clock.closeTimer
  }

  lemma WriteSameClose(e: Env, s: State, r: Request)
    ensures SameClose(s, Write(e, s, r))
  {
  }

  lemma IssueSameClose(e: Env, s: State, r0: Request)
    requires s.calls.closeCall.Some? && (r0.verb == Close ==> !r0.collect)
    ensures SameClose(s, Issue(e, s, r0))
  {
    hide Write, Noted, HasRunCapacity, Admit;
    var r := Normalized(r0);
    if Refusal(s, r0) == 0 {
      if r.verb == Execute || Seeds(s, r) {
        var s1 := ReserveRun(e, s);
        WriteSameClose(e, s1.(runs := s1.runs.(fromTrace := r.verb == Deliver && r.traceCopy,
                                               fromCompletion := r.verb == Deliver && r.completion)), r.(run := s1.runs.current));
      } else {
        WriteSameClose(e, s, r);
      }
    }
  }

  lemma AnswerSameClose(e: Env, s: State, id: nat, response: Response)
    requires s.calls.closeCall.Some? && s.calls.deferred == [] && s.clock.closeTimer.Some?
    ensures SameClose(s, ReceiveResponse(e, s, id, response))
  {
    hide Issue, Noted, HasRunCapacity;
    if id in s.calls.pending {
      var r, m := s.calls.pending[id], Removed(s, id);
      if response.Succeeded? && response.ref.Some? {
        IssueSameClose(e, m, Collector(r, response.ref.value));
      }
    }
  }

  /** A close in progress keeps its caller and its deadline until the deadline itself expires. */
  lemma CloseDeadlineKept(e: Env, sys: System, step: Step)
    requires LinkInv(sys) && Honest(step) && sys.d.calls.closeCall.Some? && sys.d.clock.closeTimer.Some?
    requires step != Daemon(CloseExpired)
    ensures SameClose(sys.d, Next(e, sys, step).d)
  {
    hide Joint, StreamOk, WorkerOk, Bounded, RunsOk, SentOk, Receive, Advance, Enabled, Issue, ReceiveResponse, GivenUp, Settled;
    var s := sys.d;
    assert s.calls.deferred == [];
    match step
    case Daemon(event) =>
      if event.Routed? && External(event) { IssueSameClose(e, s, event.request); }
    case DaemonReads =>
      if sys.ur < |sys.w.out| && sys.w.out[sys.ur].Reply? {
        AnswerSameClose(e, s, sys.w.out[sys.ur].id, sys.w.out[sys.ur].response);
      }
    case _ =>
  }

  // ---- a close goes out ----

  /** A close in progress has been written, or waits for a blocking run whose answer is still to come. */
  predicate CloseGoes(s: State) {
    s.calls.closeCall.Some? && !s.wire.stopping ==> s.wire.cut || CloseBlocked(s.calls.pending)
  }

  predicate Queueless(s: State) { s.calls.closeCall.Some? ==> s.calls.deferred == [] }

  lemma WriteGoes(e: Env, s: State, r: Request)
    requires CloseGoes(s) && (forall id :: id in s.calls.pending ==> id <= s.calls.nextOut)
    ensures CloseGoes(Write(e, s, r)) && Write(e, s, r).calls.closeCall == s.calls.closeCall
  {
    var u := Write(e, s, r);
    if CloseBlocked(s.calls.pending) {
      var id :| id in s.calls.pending && BlocksClose(s.calls.pending[id]);
      assert id in u.calls.pending && BlocksClose(u.calls.pending[id]);
    }
  }

  lemma DeferredCloseGoes(e: Env, s: State)
    requires (s.calls.closeCall.Some? ==> s.calls.closeCall.value.verb == Close) && (s.wire.closed ==> s.wire.stopping)
    ensures CloseGoes(WriteDeferredClose(e, s)) && WriteDeferredClose(e, s).calls.closeCall == s.calls.closeCall
  {
    if s.calls.closeCall.Some? {
      assert BlocksClose(s.calls.pending[s.calls.nextOut + 1 := s.calls.closeCall.value][s.calls.nextOut + 1]);
    }
  }

  lemma IssueGoes(e: Env, s: State, r0: Request)
    requires CloseGoes(s) && Core(s)
    ensures CloseGoes(Issue(e, s, r0))
  {
    hide WireOk, RunsOk, Write, WriteDeferredClose, GivenUp, HasRunCapacity, CloseBlocked, Admit;
    var r := Normalized(r0);
    if Refusal(s, r0) == 0 {
      if r.verb == Close {
        DeferredCloseGoes(e, CloseTaken(s, r));
      } else if r.verb == Execute || Seeds(s, r) {
        var s1 := ReserveRun(e, s);
        WriteGoes(e, s1.(runs := s1.runs.(fromTrace := r.verb == Deliver && r.traceCopy,
                                          fromCompletion := r.verb == Deliver && r.completion)), r.(run := s1.runs.current));
      } else {
        WriteGoes(e, s, r);
      }
    }
  }

  /** Neither the close in progress, nor the end of the wire, nor the queue changes. */
  predicate KeepsClose(s: State, u: State) {
    && u.calls.closeCall == s.calls.closeCall && u.wire.closed == s.wire.closed && u.wire.stopping == s.wire.stopping
    && u.calls.deferred == s.calls.deferred
  }

  lemma WriteKeepsClose(e: Env, s: State, r: Request)
    ensures KeepsClose(s, Write(e, s, r))
  {
  }

  lemma IssueKeepsClose(e: Env, s: State, r0: Request)
    requires r0.verb != Close
    ensures KeepsClose(s, Issue(e, s, r0))
  {
    hide Refusal, Write, Noted;
    var r := Normalized(r0);
    var s1 := ReserveRun(e, s);
    WriteKeepsClose(e, s1.(runs := s1.runs.(fromTrace := r.verb == Deliver && r.traceCopy,
                                            fromCompletion := r.verb == Deliver && r.completion)), r.(run := s1.runs.current));
    WriteKeepsClose(e, s, r);
  }

  /** With a close in progress nothing is queued; without one, draining begins none. */
  lemma {:induction false} DrainGoes(e: Env, s: State)
    requires Queueless(s) && forall i :: 0 <= i < |s.calls.deferred| ==> s.calls.deferred[i].verb == Deliver
    ensures var u := StartDeferred(e, s);
      && u.calls.closeCall == s.calls.closeCall && u.wire.closed == s.wire.closed && u.wire.stopping == s.wire.stopping
      && (s.calls.closeCall.Some? ==> u == s)
    decreases |s.calls.deferred|
  {
    hide Issue;
    if s.runs.current.None? && s.calls.deferred != [] {
      IssueKeepsClose(e, Popped(s), s.calls.deferred[0]);
      DrainGoes(e, Issue(e, Popped(s), s.calls.deferred[0]));
    }
  }

  /** One call less is pending, which was not what the close waits for. */
  lemma RemovedGoes(s: State, id: nat)
    requires CloseGoes(s) && id in s.calls.pending && !BlocksClose(s.calls.pending[id])
    ensures CloseGoes(Removed(s, id))
  {
    if CloseBlocked(s.calls.pending) {
      var k :| k in s.calls.pending && BlocksClose(s.calls.pending[k]);
      assert k in Removed(s, id).calls.pending;
    }
  }

  lemma RefuseKeeps(s: State, id: Option<RunId>)
    ensures RefuseRun(s, id).calls == s.calls && RefuseRun(s, id).wire == s.wire
  {
  }

  lemma FailGoes(e: Env, s: State, r: Request, code: int)
    requires Core(s) && Queueless(s)
    ensures var u := FailResponse(e, s, r, code);
      && u.calls.closeCall == s.calls.closeCall && u.wire.closed == s.wire.closed && u.wire.stopping == s.wire.stopping
      && (s.calls.closeCall.Some? ==> u.calls == s.calls && u.wire == s.wire)
  {
    hide WireOk, RunsOk, StartDeferred, RefuseRun, Noted;
    RefuseKeeps(s, r.run);
    var s1 := if r.verb == Execute || code != INTERNAL then RefuseRun(s, r.run) else s;
    DrainGoes(e, AnswerRouted(s1, r, Refused(code)));
  }

  /** The answer to a call that the close does not wait for. */
  lemma PlainGoes(e: Env, s: State, r: Request, response: Response)
    requires Core(s) && Queueless(s) && CloseGoes(s) && !BlocksClose(r) && r.destination == s.entry.identity && s.entry.attached
    ensures CloseGoes(SettleResponse(e, s, r, response))
  {
    hide WireOk, RunsOk, CallsOk, Issue, FailResponse, HasRunCapacity, CloseBlocked, Noted;
    IssueGoes(e, s, r);
    if response.Failed? {
      FailGoes(e, s, r, response.code);
    }
  }

  /** The answer to the blocking run: afterwards the close is tried again. */
  lemma BlockingGoes(e: Env, s: State, r: Request, response: Response)
    requires Core(s) && Queueless(s) && r.verb == Execute && r.collect && r.destination == s.entry.identity && s.entry.attached
    ensures var u := SettleResponse(e, s, r, response); u.calls.closeCall == s.calls.closeCall && u.wire.closed == s.wire.closed && u.wire.stopping == s.wire.stopping
  {
    hide WireOk, RunsOk, CallsOk, Issue, FailResponse, HasRunCapacity, CloseBlocked, Noted;
    if response.Failed? {
      FailGoes(e, s, r, response.code);
    } else if response.Succeeded? && response.ref.Some? {
      IssueKeepsClose(e, s, Collector(r, response.ref.value));
    }
  }

  lemma ReceiveGoes(e: Env, s: State, id: nat, response: Response)
    requires Inv(s) && CloseGoes(s) && !s.wire.stopping && Addressed(s.calls, s.entry.identity)
    ensures CloseGoes(ReceiveResponse(e, s, id, response))
  {
    if id in s.calls.pending {
      var r, m := s.calls.pending[id], Removed(s, id);
      RemovedInv(s, id);
      hide SettleResponse, WriteDeferredClose, WireOk, RunsOk, CloseBlocked;
      if r.verb == Execute && r.collect {
        BlockingGoes(e, m, r, response);
        DeferredCloseGoes(e, SettleResponse(e, m, r, response));
      } else if r.verb == Close {
        ClosedGoes(e, m, r, response);
      } else {
        RemovedGoes(s, id);
        PlainGoes(e, m, r, response);
      }
    }
  }

  lemma ClosedGoes(e: Env, s: State, r: Request, response: Response)
    requires r.verb == Close && r.destination == s.entry.identity && s.entry.attached
    ensures CloseGoes(SettleResponse(e, s, r, response))
  {
  }

  lemma HandleGoes(e: Env, s: State, event: Event)
    requires Inv(s) && CloseGoes(s) && Addressed(s.calls, s.entry.identity) && !event.Renamed?
    ensures CloseGoes(Handle(e, s, event))
  {
    hide WireOk, RunsOk, Issue, ReceiveResponse, StartDeferred, GivenUp, Settled, CloseBlocked, WriteDeferredClose;
    match event
    case Routed(r) => IssueGoes(e, s, r);
    case Answered(id, response) => if !s.wire.stopping { ReceiveGoes(e, s, id, response); }
    case Ready(call, id, done) =>
      if !s.wire.stopping && ReadyMatches(s, id) { DrainGoes(e, TurnAcked(e, s, call, done)); }
    case Retire(ticket) =>
      DeferredCloseGoes(e, CloseTaken(s, Request(ticket, s.entry.identity, Close, None, None, false, false, false, false)));
    case _ =>
  }

  lemma {:induction false} CloseSafety(e: Env, identity: nat, steps: seq<Step>)
    requires AllHonest(steps)
    ensures CloseGoes(Run(e, Opened(identity), steps).d)
    decreases |steps|
  {
    hide CloseGoes, Handle, Receive, Advance, Enabled, StreamOk, WorkerOk, Joint, Bounded;
    if steps == [] {
      assert CloseGoes(Opened(identity).d) by { StartGoes(identity); }
    } else {
      var n := |steps| - 1;
      assert AllHonest(steps[..n]);
      CloseSafety(e, identity, steps[..n]);
      LaneSafety(e, identity, steps[..n]);
      OrderSafety(e, identity, steps[..n]);
      var sys := Run(e, Opened(identity), steps[..n]);
      match steps[n]
      case Daemon(event) => if External(event) { HandleGoes(e, sys.d, event); }
      case DaemonReads => if sys.ur < |sys.w.out| { HandleGoes(e, sys.d, EventOf(sys.w.out[sys.ur])); }
      case _ =>
    }
  }

  lemma StartGoes(identity: nat)
    ensures CloseGoes(Opened(identity).d)
  {
  }

  /**
    In every interleaving, a close in progress on a lane that is not stopping and
    whose wire is whole is with the worker, or waits for a blocking run whose
    answer is still to come: it is never forgotten.
   */
  lemma CloseIsNotForgotten(e: Env, identity: nat, steps: seq<Step>)
    requires AllHonest(steps)
    ensures var s := Run(e, Opened(identity), steps).d;
      s.calls.closeCall.Some? && !s.wire.stopping && !s.wire.cut ==>
        exists id :: id in s.calls.pending && (s.calls.pending[id].verb == Close || (s.calls.pending[id].verb == Execute && s.calls.pending[id].collect))
  {
    hide Run;
    CloseSafety(e, identity, steps);
  }

  /** The answer to the close ends the lane: its wire is cut, and after a success it stops, within the bound set for a close. */
  lemma CloseEndsTheLane(e: Env, s: State, id: nat, response: Response)
    requires !s.wire.stopping && id in s.calls.pending && s.calls.pending[id].verb == Close
    requires s.calls.pending[id].destination == s.entry.identity && s.entry.attached
    ensures var u := Handle(e, s, Answered(id, response));
      && u.wire.cut && u.wire.sent == s.wire.sent && u.books == s.books && (u.wire.stopping <==> response.Succeeded?)
      && (response.Succeeded? ==> u.clock.closeTimer == if s.clock.closeTimer.Some? then s.clock.closeTimer else Some(s.clock.now + 10_000))
  {
  }
}
