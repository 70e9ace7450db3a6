/**
  Whole runs of a session's event loop: the inbox, the order of the delivery
  queue, and the answers every posted request gets.
 */
module SessionLoop {
  import opened Common
  import opened RunIds
  import opened SessionModel
  import opened SessionLedger

  // ---- the delivery queue is first in, first out ----

  /** The tickets taken, followed by the tickets waiting, are the tickets promised; each promise was also the answer. */
  ghost predicate QueueOk(s: State) {
    && s.books.queued == s.books.popped + TicketsOf(s.calls.deferred)
    && forall k: nat :: Occurs(s.books.queued, k) <= |At(s.books.replies, k)|
  }

  /** The queue is untouched and no answer is taken back. */
  ghost predicate Quiet(s: State, u: State) {
    && u.books.queued == s.books.queued && u.books.popped == s.books.popped && u.calls.deferred == s.calls.deferred
    && forall k: nat :: |At(u.books.replies, k)| >= |At(s.books.replies, k)|
  }

  lemma QuietQueue(s: State, u: State)
    requires QueueOk(s) && Quiet(s, u)
    ensures QueueOk(u)
  {
    hide Occurs, At;
  }

  lemma AnswerQuiet(s: State, r: Request, a: Answer)
    ensures Quiet(s, AnswerRouted(s, r, a))
  {
  }

  lemma WriteQuiet(e: Env, s: State, r: Request)
    ensures Quiet(s, Write(e, s, r))
  {
    hide RefuseRun, Noted, At;
    var id := s.calls.nextOut + 1;
    var s1 := s.(calls := s.calls.(nextOut := id));
    var s2 := s1.(wire := Send(e, s.wire, Call(id, r)));
    RefuseSame(s1, r.run);
    RefuseSame(s2, r.run);
    AnswerQuiet(RefuseRun(s1, r.run), r, Refused(NOT_CONNECTED));
    AnswerQuiet(RefuseRun(s2, r.run), r, Refused(NOT_CONNECTED));
  }

  lemma {:induction false} GivenUpOrder(b: Books, rs: seq<Request>, code: int)
    ensures GivenUp(b, rs, code).popped == b.popped + TicketsOf(rs) && GivenUp(b, rs, code).queued == b.queued
    ensures forall k: nat :: |At(GivenUp(b, rs, code).replies, k)| >= |At(b.replies, k)|
    decreases |rs|
  {
    if rs == [] {
      assert TicketsOf(rs) == [];
    } else {
      var c := Noted(b, rs[0], Refused(code)).(popped := b.popped + [rs[0].ticket]);
      GivenUpOrder(c, rs[1..], code);
      assert TicketsOf(rs) == [rs[0].ticket] + TicketsOf(rs[1..]);
    }
  }

  lemma SettleDeferredQueue(s: State, code: int)
    requires QueueOk(s)
    ensures QueueOk(SettleDeferred(s, code))
  {
    hide Occurs, GivenUp, At;
    GivenUpOrder(s.books, s.calls.deferred, code);
    assert TicketsOf([]) == [];
  }

  lemma IssueQueue(e: Env, s: State, r0: Request)
    requires QueueOk(s)
    ensures QueueOk(Issue(e, s, r0))
  {
    hide QueueOk, Write, GivenUp, Refusal, Noted;
    var r := Normalized(r0);
    AnswerQuiet(s, r, Refused(Refusal(s, r0)));
    if Refusal(s, r0) != 0 {
      QuietQueue(s, Issue(e, s, r0));
    } else if r.verb == Close {
      SettleDeferredQueue(s, BUSY);
      QuietQueue(SettleDeferred(s, BUSY), BeginClose(e, s, r));
    } else if r.verb == Execute || Seeds(s, r) {
      var s1 := ReserveRun(e, s);
      var s2 := s1.(runs := s1.runs.(fromTrace := r.verb == Deliver && r.traceCopy,
                                     fromCompletion := r.verb == Deliver && r.completion));
      WriteQuiet(e, s2, r.(run := s1.runs.current));
      QuietQueue(s, s2);
      QuietQueue(s2, Issue(e, s, r0));
    } else {
      WriteQuiet(e, s, r);
      QuietQueue(s, Issue(e, s, r0));
    }
  }

  lemma PoppedQueue(s: State)
    requires QueueOk(s) && s.calls.deferred != []
    ensures QueueOk(Popped(s))
  {
    hide Occurs, At;
    var rs := s.calls.deferred;
    assert TicketsOf(rs) == [rs[0].ticket] + TicketsOf(rs[1..]);
  }

  lemma {:induction false} StartDeferredQueue(e: Env, s: State)
    requires QueueOk(s)
    ensures QueueOk(StartDeferred(e, s))
    decreases |s.calls.deferred|
  {
    hide QueueOk, Issue;
    if s.runs.current.None? && s.calls.deferred != [] {
      PoppedQueue(s);
      IssueQueue(e, Popped(s), s.calls.deferred[0]);
      StartDeferredQueue(e, Issue(e, Popped(s), s.calls.deferred[0]));
    }
  }

  lemma RetainQueue(e: Env, s: State, r: Request)
    requires QueueOk(s) && !r.scheduled
    ensures QueueOk(Retain(e, s, r))
  {
    hide Issue, HasRunCapacity;
    if s.runs.current.None? {
      IssueQueue(e, s, r);
    } else if !HasRunCapacity(s) {
      AnswerQuiet(s, r, Refused(BUSY));
      QuietQueue(s, Retain(e, s, r));
    } else {
      var u := Retain(e, s, r);
      assert TicketsOf(u.calls.deferred) == TicketsOf(s.calls.deferred) + [r.ticket];
      assert forall k: nat :: Occurs(u.books.queued, k) == Occurs(s.books.queued, k) + One(k == r.ticket);
    }
  }

  lemma SettleResponseQueue(e: Env, s: State, r: Request, response: Response)
    requires QueueOk(s) && (r.scheduled ==> r.run.Some?)
    ensures QueueOk(SettleResponse(e, s, r, response))
  {
    hide QueueOk, Issue, Retain, StartDeferred, Noted, RefuseRun, RecordAcknowledgment, At;
    if r.destination != s.entry.identity || !s.entry.attached {
      AnswerQuiet(s, r, Refused(NOT_CONNECTED));
      QuietQueue(s, SettleResponse(e, s, r, response));
    } else if r.verb == Close {
      QuietQueue(s, SettleResponse(e, s, r, response));
    } else if Retained(s, r, response) {
      RetainQueue(e, s, r);
    } else if response.Failed? {
      var s1 := if r.verb == Execute || response.code != INTERNAL then RefuseRun(s, r.run) else s;
      RefuseSame(s, r.run);
      AnswerQuiet(s1, r, Refused(response.code));
      QuietQueue(s, AnswerRouted(s1, r, Refused(response.code)));
      StartDeferredQueue(e, AnswerRouted(s1, r, Refused(response.code)));
    } else if response.Succeeded? && r.verb == Execute && r.collect && response.ref.Some? && response.ref == r.run {
      IssueQueue(e, s, Collector(r, response.ref.value));
    } else {
      AnswerQuiet(CloseWire(s), r, Refused(NOT_CONNECTED));
      AnswerQuiet(s, r, Done);
      AnswerQuiet(s.(runs := RecordAcknowledgment(s.runs, r.ref)), r, Done);
      QuietQueue(s, SettleResponse(e, s, r, response));
    }
  }

  lemma ReceiveQueue(e: Env, s: State, id: nat, response: Response)
    requires QueueOk(s) && TablesOk(s)
    ensures QueueOk(ReceiveResponse(e, s, id, response))
  {
    hide QueueOk, SettleResponse, CallTables, At;
    if id !in s.calls.pending {
      QuietQueue(s, HardStop(s));
    } else {
      var r, m := s.calls.pending[id], Without(s, id);
      PendingShape(s, id);
      QuietQueue(s, m);
      SettleResponseQueue(e, m, r, response);
      var u := SettleResponse(e, m, r, response);
      QuietQueue(u, WriteDeferredClose(e, u));
    }
  }

  lemma SettledQuiet(c: Calls, m: map<nat, seq<Answer>>, code: int)
    ensures forall k: nat :: |At(Settled(c, m, code, false), k)| >= |At(m, k)|
  {
    forall k: nat
      ensures |At(Settled(c, m, code, false), k)| >= |At(m, k)|
    {
      SettledCount(c, m, code, false, k);
    }
  }

  lemma SettlePendingQueue(s: State, code: int)
    requires QueueOk(s)
    ensures QueueOk(SettlePending(s, code))
  {
    hide QueueOk, Settled, GivenUp, At;
    var m := SettleDeferred(s, code);
    SettleDeferredQueue(s, code);
    SettledQuiet(m.calls, m.books.replies, code);
    QuietQueue(m, SettlePending(s, code));
  }

  lemma HandleQueue(e: Env, s: State, event: Event)
    requires QueueOk(s) && TablesOk(s)
    ensures QueueOk(Handle(e, s, event))
  {
    hide QueueOk, TablesOk, Issue, ReceiveResponse, StartDeferred, SettlePending, BeginClose, Noted, At;
    match event
    case Routed(r) =>
      AnswerQuiet(s, r, Refused(NOT_CONNECTED));
      QuietQueue(s, AnswerRouted(s, r, Refused(NOT_CONNECTED)));
      IssueQueue(e, s, r);
    case Answered(id, response) => ReceiveQueue(e, s, id, response);
    case Ready(call, id, done) => ReadyQueue(e, s, call, id, done);
    case Disconnected =>
      var m := s.(wire := s.wire.(stopping := true, closed := true, cut := true), clock := s.clock.(armed := false),
                  entry := s.entry.(attached := false, running := false, claimed := s.entry.claimed || !s.entry.peer));
      QuietQueue(s, m);
      SettlePendingQueue(m, NOT_CONNECTED);
    case Retire(ticket) => RetireQueue(e, s, ticket);
    case CloseExpired => QuietQueue(s, Handle(e, s, event));
    case Renamed(identity) =>
      if s.entry.peer && !s.wire.stopping {
        SettlePendingQueue(s, NOT_CONNECTED);
        QuietQueue(SettlePending(s, NOT_CONNECTED), Identify(s, identity));
      }
    case Tick(now) => QuietQueue(s, Handle(e, s, event));
  }

  lemma ReadyQueue(e: Env, s: State, call: nat, id: RunId, done: bool)
    requires QueueOk(s)
    ensures QueueOk(TurnReady(e, s, call, id, done))
  {
    hide QueueOk, StartDeferred, At;
    QuietQueue(s, HardStop(s));
    QuietQueue(s, TurnAcked(e, s, call, done));
    var u := StartDeferred(e, TurnAcked(e, s, call, done));
    StartDeferredQueue(e, TurnAcked(e, s, call, done));
    QuietQueue(u, u.(books := u.books.(notices := u.books.notices + [Charge(id, !s.runs.fromTrace)])));
  }

  lemma RetireQueue(e: Env, s: State, ticket: nat)
    requires QueueOk(s)
    ensures QueueOk(PolicyClose(e, s, ticket))
  {
    hide QueueOk, GivenUp, At;
    var r := Request(ticket, s.entry.identity, Close, None, None, false, false, false, false);
    SettleDeferredQueue(s, BUSY);
    QuietQueue(SettleDeferred(s, BUSY), BeginClose(e, s, r));
  }

  // ---- the loop ----

  /** The session, the requests posted and not yet handled, and every reply ticket handed out so far. */
  datatype Loop = Loop(s: State, inbox: seq<Request>, seen: set<nat>)

  /** Post: another session routes a request here. Take: the loop handles the oldest one. Own: any other event. */
  datatype Action = Post(request: Request) | Take | Own(event: Event)

  /** Routing reaches an attached session only, and only deliveries reach a peer (directory.go:446-470). */
  predicate Allowed(l: Loop, a: Action) {
    match a
    case Post(r) => l.s.entry.attached && Fresh(r) && r.ticket !in l.seen && (l.s.entry.peer ==> r.verb == Deliver)
    case Take => l.inbox != []
    case Own(event) => !event.Routed? && (event.Retire? ==> event.ticket !in l.seen)
  }

  function Act(e: Env, l: Loop, a: Action): Loop
    requires Allowed(l, a)
  {
    match a
    case Post(r) => l.(inbox := l.inbox + [r], seen := l.seen + {r.ticket})
    case Take => Loop(Handle(e, l.s, Routed(l.inbox[0])), l.inbox[1..], l.seen)
    case Own(event) =>
      var u := Handle(e, l.s, event);
      Loop(u, l.inbox, if event.Retire? && u != l.s then l.seen + {event.ticket} else l.seen)
  }

  predicate Possible(e: Env, l: Loop, actions: seq<Action>)
    decreases |actions|
  {
    actions == [] || (Allowed(l, actions[0]) && Possible(e, Act(e, l, actions[0]), actions[1..]))
  }

  function After(e: Env, l: Loop, actions: seq<Action>): Loop
    requires Possible(e, l, actions)
    decreases |actions|
  {
    if actions == [] then l else After(e, Act(e, l, actions[0]), actions[1..])
  }

  /** Every ticket handed out is in exactly one place: the inbox, or one token of the session. */
  ghost predicate LoopOk(l: Loop) {
    && TablesOk(l.s) && QueueOk(l.s)
    && (forall i :: 0 <= i < |l.inbox| ==> Fresh(l.inbox[i]) && (l.s.entry.peer ==> l.inbox[i].verb == Deliver))
    && (forall k: nat :: Tokens(l.s, k) + Occurs(TicketsOf(l.inbox), k) == One(k in l.seen))
    && (forall k: nat :: Dues(l.s, k) == Promises(l.s, k))
  }

  /** A session as it enters its loop: a peer, a lane still opening, or an open lane. */
  function Begun(identity: nat, peer: bool, launching: bool): Loop {
    var s := Lane(identity);
    Loop(s.(entry := s.entry.(peer := peer, launching := launching)), [], {})
  }

  lemma StartOk(identity: nat, peer: bool, launching: bool)
    ensures LoopOk(Begun(identity, peer, launching))
  {
    var l := Begun(identity, peer, launching);
    assert TicketsOf([]) == [];
    assert forall k: nat, b: bool :: Holders(l.s.calls, k, b) == {};
  }

  lemma PostOk(l: Loop, r: Request)
    requires LoopOk(l) && Fresh(r) && r.ticket !in l.seen && (l.s.entry.peer ==> r.verb == Deliver)
    ensures LoopOk(l.(inbox := l.inbox + [r], seen := l.seen + {r.ticket}))
  {
    hide TablesOk, QueueOk, Tokens, Dues, Promises, Fresh;
    var m := l.(inbox := l.inbox + [r], seen := l.seen + {r.ticket});
    assert TicketsOf(m.inbox) == TicketsOf(l.inbox) + [r.ticket];
    assert forall k: nat :: Occurs(TicketsOf(m.inbox), k) == Occurs(TicketsOf(l.inbox), k) + One(k == r.ticket);
  }

  lemma PeerKept(e: Env, s: State, event: Event)
    ensures Handle(e, s, event).entry.peer == s.entry.peer
  {
    hide GivenUp, Settled, Write, Refusal;
    forall u: State, r: Request ensures Write(e, u, r).entry.peer == u.entry.peer { WritePeer(e, u, r); }
    forall u: State, r: Request ensures Issue(e, u, r).entry.peer == u.entry.peer { IssuePeer(e, u, r); }
    hide Issue, WriteDeferredClose, StartDeferred;
    forall u: State ensures StartDeferred(e, u).entry.peer == u.entry.peer { DrainPeer(e, u); }
    forall u: State ensures WriteDeferredClose(e, u).entry.peer == u.entry.peer { ClosePeer(e, u); }
    hide RefuseRun;
    forall u: State, id: Option<RunId> ensures RefuseRun(u, id).entry.peer == u.entry.peer { RefuseSame(u, id); }
  }

  lemma WritePeer(e: Env, s: State, r: Request)
    ensures Write(e, s, r).entry.peer == s.entry.peer
  {
  }

  lemma ClosePeer(e: Env, s: State)
    ensures WriteDeferredClose(e, s).entry.peer == s.entry.peer
  {
  }

  lemma IssuePeer(e: Env, s: State, r0: Request)
    ensures Issue(e, s, r0).entry.peer == s.entry.peer
  {
    hide Write, WriteDeferredClose, GivenUp, Refusal;
    forall u: State, r: Request ensures Write(e, u, r).entry.peer == u.entry.peer { WritePeer(e, u, r); }
    forall u: State ensures WriteDeferredClose(e, u).entry.peer == u.entry.peer { ClosePeer(e, u); }
  }

  lemma {:induction false} DrainPeer(e: Env, s: State)
    ensures StartDeferred(e, s).entry.peer == s.entry.peer
    decreases |s.calls.deferred|
  {
    hide Issue;
    if s.runs.current.None? && s.calls.deferred != [] {
      IssuePeer(e, Popped(s), s.calls.deferred[0]);
      DrainPeer(e, Issue(e, Popped(s), s.calls.deferred[0]));
    }
  }

  /** Handling the oldest request moves its token from the inbox into the session. */
  lemma TakeGains(e: Env, l: Loop)
    requires LoopOk(l) && l.inbox != []
    ensures OneMore(l.s, Handle(e, l.s, Routed(l.inbox[0])), l.inbox[0].ticket)
    ensures TablesOk(Handle(e, l.s, Routed(l.inbox[0])))
  {
    hide Tokens, Dues, Promises, Issue, CallTables, QueueOk, Occurs, Noted;
    var r := l.inbox[0];
    OccursFirst(l.inbox, r.ticket);
    assert Tokens(l.s, r.ticket) == 0;
    if l.s.wire.stopping || r.destination != l.s.entry.identity || l.s.entry.launching {
      AnswerAfter(l.s, l.s, r, Refused(NOT_CONNECTED));
    } else {
      IssueGains(e, l.s, r);
    }
    assert Gains(l.s, Handle(e, l.s, Routed(r)), r);
  }

  lemma TakeOk(e: Env, l: Loop)
    requires LoopOk(l) && l.inbox != []
    ensures LoopOk(Act(e, l, Take))
  {
    hide Tokens, Dues, Promises, Handle, TablesOk, QueueOk, Occurs, Fresh;
    TakeGains(e, l);
    HandleQueue(e, l.s, Routed(l.inbox[0]));
    PeerKept(e, l.s, Routed(l.inbox[0]));
    forall k: nat ensures Occurs(TicketsOf(l.inbox), k) == One(l.inbox[0].ticket == k) + Occurs(TicketsOf(l.inbox[1..]), k) {
      OccursFirst(l.inbox, k);
    }
  }

  /** An event of the session's own moves no token, except that a retirement it decides brings its own ticket. */
  lemma OwnSame(e: Env, s: State, event: Event)
    requires TablesOk(s) && Spent(s) && !event.Routed? && (event.Retire? ==> Tokens(s, event.ticket) == 0)
    ensures TablesOk(Handle(e, s, event))
    ensures Same(s, Handle(e, s, event)) || (event.Retire? && OneMore(s, Handle(e, s, event), event.ticket))
    ensures event.Retire? && Handle(e, s, event) != s ==> OneMore(s, Handle(e, s, event), event.ticket)
  {
    hide Tokens, Dues, Promises, Spent, Same, OneMore, CallTables, ReceiveResponse, TurnReady, ConnectionClosed, PolicyClose, Identify;
    TablesDecide(s, s);
    match event
    case Answered(id, response) => if !s.wire.stopping { ReceiveSame(e, s, id, response); }
    case Ready(call, id, done) => if !s.wire.stopping { TurnReadySame(e, s, call, id, done); }
    case Disconnected => ClosedSame(s);
    case Retire(ticket) => PolicyCloseGains(e, s, ticket);
    case CloseExpired => TablesDecide(s, Handle(e, s, event));
    case Renamed(identity) => IdentifySame(s, identity);
    case Tick(now) => TablesDecide(s, Handle(e, s, event));
  }

  lemma OwnOk(e: Env, l: Loop, event: Event)
    requires LoopOk(l) && Allowed(l, Own(event))
    ensures LoopOk(Act(e, l, Own(event)))
  {
    hide Tokens, Dues, Promises, Handle, TablesOk, QueueOk, Occurs, Fresh;
    OwnSame(e, l.s, event);
    HandleQueue(e, l.s, event);
    PeerKept(e, l.s, event);
  }

  lemma ActOk(e: Env, l: Loop, a: Action)
    requires LoopOk(l) && Allowed(l, a)
    ensures LoopOk(Act(e, l, a))
  {
    hide LoopOk, Handle, Fresh;
    match a
    case Post(r) => PostOk(l, r);
    case Take => TakeOk(e, l);
    case Own(event) => OwnOk(e, l, event);
  }

  lemma {:induction false} RunOk(e: Env, l: Loop, actions: seq<Action>)
    requires LoopOk(l) && Possible(e, l, actions)
    ensures LoopOk(After(e, l, actions))
    decreases |actions|
  {
    hide LoopOk, Act, Allowed;
    if actions != [] {
      ActOk(e, l, actions[0]);
      RunOk(e, Act(e, l, actions[0]), actions[1..]);
    }
  }

  /**
    In every run of a session, whatever the other end of the wire does, no
    request has been answered twice, and deliveries leave the queue in the order
    in which they were promised a run, each promised at most once.
   */
  lemma AtMostOneAnswer(e: Env, identity: nat, peer: bool, launching: bool, actions: seq<Action>, t: nat)
    requires Possible(e, Begun(identity, peer, launching), actions)
    ensures var l := After(e, Begun(identity, peer, launching), actions);
      && |At(l.s.books.replies, t)| <= One(t in l.seen)
      && Occurs(l.s.books.queued, t) <= 1
      && l.s.books.popped <= l.s.books.queued
  {
    hide Possible, Handle, TablesOk, After;
    var start := Begun(identity, peer, launching);
    StartOk(identity, peer, launching);
    RunOk(e, start, actions);
    var l := After(e, start, actions);
    assert Tokens(l.s, t) + Occurs(TicketsOf(l.inbox), t) == One(t in l.seen);
  }

  /**
    When a session's loop returns, its connection is closed and its inbox
    drained: every request ever posted has been answered exactly once, the close
    call by the end of the loop itself, and every promised delivery has had
    exactly one outcome logged.
   */
  lemma ExactlyOneAnswer(e: Env, identity: nat, peer: bool, launching: bool, actions: seq<Action>, forget: bool, deleted: bool, t: nat)
    requires Possible(e, Begun(identity, peer, launching), actions)
    requires var l := After(e, Begun(identity, peer, launching), actions);
      l.s.wire.closed && l.inbox == []
    ensures var l := After(e, Begun(identity, peer, launching), actions);
      var final := FinishLane(l.s, forget, deleted);
      && |At(final.books.replies, t)| == One(t in l.seen)
      && |At(final.books.notes, t)| == Occurs(final.books.queued, t) <= 1
      && final.books.popped == final.books.queued
  {
    hide Possible, Handle, After, CallTables;
    var start := Begun(identity, peer, launching);
    StartOk(identity, peer, launching);
    RunOk(e, start, actions);
    EndOk(After(e, start, actions), forget, deleted, t);
  }

  lemma EndOk(l: Loop, forget: bool, deleted: bool, t: nat)
    requires LoopOk(l) && l.s.wire.closed && l.inbox == []
    ensures var final := FinishLane(l.s, forget, deleted);
      && |At(final.books.replies, t)| == One(t in l.seen)
      && |At(final.books.notes, t)| == Occurs(final.books.queued, t) <= 1
      && final.books.popped == final.books.queued
  {
    assert TicketsOf([]) == [];
    assert Holders(l.s.calls, t, false) == {} && Holders(l.s.calls, t, true) == {};
    assert Tokens(l.s, t) + Occurs(TicketsOf(l.inbox), t) == One(t in l.seen);
    assert Dues(l.s, t) == Promises(l.s, t);
  }
}
