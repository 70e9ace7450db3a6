/**
  How often the body of a delivery is written to the wire: at most twice, and a
  second time only as the start of a run, after the other end declined the first
  with NotRunning.
 */
module DeliveryOnce {
  import opened Common
  import opened RunIds
  import opened SessionModel
  import opened SessionLedger
  import opened SessionLoop

  /** The calls answered with NotRunning so far, and the tickets taken from the inbox so far. */
  datatype Past = Past(declined: set<nat>, known: set<nat>)

  predicate Delivers(f: Down, t: nat) { f.Call? && f.request.verb == Deliver && f.request.ticket == t }

  predicate Plain(r: Request) { r.verb == Deliver && r.run.None? }

  /** Two writes of one delivery: the first started no run and was declined, the second starts one. */
  ghost predicate FramesOk(sent: seq<Down>, declined: set<nat>) {
    forall i, j :: 0 <= i < j < |sent| && sent[j].Call? && sent[j].request.verb == Deliver && Delivers(sent[i], sent[j].request.ticket) ==>
      sent[i].request.run.None? && sent[i].id in declined && sent[j].request.run.Some?
  }

  ghost predicate Unsent(sent: seq<Down>, t: nat) { forall i :: 0 <= i < |sent| ==> !Delivers(sent[i], t) }

  ghost predicate OnlyDeclined(sent: seq<Down>, t: nat, declined: set<nat>) {
    forall i :: 0 <= i < |sent| && Delivers(sent[i], t) ==> sent[i].request.run.None? && sent[i].id in declined
  }

  ghost predicate OnlyAs(sent: seq<Down>, t: nat, id: nat) {
    forall i :: 0 <= i < |sent| && Delivers(sent[i], t) ==> sent[i].request.run.None? && sent[i].id == id
  }

  ghost predicate WritesOk(sent: seq<Down>, c: Calls, p: Past) {
    && FramesOk(sent, p.declined)
    && (forall id :: id in c.pending ==>
          c.pending[id].ticket in p.known && (Plain(c.pending[id]) ==> OnlyAs(sent, c.pending[id].ticket, id)))
    && (forall j :: 0 <= j < |c.deferred| ==>
          c.deferred[j].ticket in p.known && c.deferred[j].run.None? && OnlyDeclined(sent, c.deferred[j].ticket, p.declined))
    && (c.closeCall.Some? ==> c.closeCall.value.ticket in p.known)
    && (forall i :: 0 <= i < |sent| && sent[i].Call? ==> sent[i].request.ticket in p.known)
  }

  ghost predicate DeliverOk(s: State, p: Past) { WritesOk(s.wire.sent, s.calls, p) }

  /** No delivery is added to the wire, to the pending calls or to the queue. */
  ghost predicate Calm(s: State, u: State, known: set<nat>) {
    && s.wire.sent <= u.wire.sent
    && (forall i :: |s.wire.sent| <= i < |u.wire.sent| && u.wire.sent[i].Call? ==>
          u.wire.sent[i].request.verb != Deliver && u.wire.sent[i].request.ticket in known)
    && (forall id :: id in u.calls.pending ==>
          || (id in s.calls.pending && s.calls.pending[id] == u.calls.pending[id])
          || (u.calls.pending[id].verb != Deliver && u.calls.pending[id].ticket in known))
    && (forall j :: 0 <= j < |u.calls.deferred| ==> u.calls.deferred[j] in s.calls.deferred)
    && (u.calls.closeCall == s.calls.closeCall || (u.calls.closeCall.Some? && u.calls.closeCall.value.ticket in known))
  }

  lemma CalmKeeps(s: State, u: State, p: Past, q: Past)
    requires DeliverOk(s, p) && p.declined <= q.declined && p.known <= q.known && Calm(s, u, q.known)
    ensures DeliverOk(u, q)
  {
    assert forall i, t: nat :: 0 <= i < |u.wire.sent| && Delivers(u.wire.sent[i], t) ==>
      i < |s.wire.sent| && u.wire.sent[i] == s.wire.sent[i];
    assert FramesOk(u.wire.sent, q.declined);
    forall id | id in u.calls.pending && Plain(u.calls.pending[id])
      ensures OnlyAs(u.wire.sent, u.calls.pending[id].ticket, id)
    {
      assert OnlyAs(s.wire.sent, s.calls.pending[id].ticket, id);
    }
    forall j | 0 <= j < |u.calls.deferred|
      ensures OnlyDeclined(u.wire.sent, u.calls.deferred[j].ticket, q.declined)
    {
      var k :| 0 <= k < |s.calls.deferred| && s.calls.deferred[k] == u.calls.deferred[j];
      assert OnlyDeclined(s.wire.sent, s.calls.deferred[k].ticket, p.declined);
    }
  }

  /** Nothing is written and no table grows. */
  lemma QuietCalm(s: State, u: State, p: Past, q: Past)
    requires DeliverOk(s, p) && p.declined <= q.declined && p.known <= q.known
    requires u.wire.sent == s.wire.sent && u.calls.closeCall == s.calls.closeCall
    requires forall id :: id in u.calls.pending ==> id in s.calls.pending && u.calls.pending[id] == s.calls.pending[id]
    requires u.calls.deferred == s.calls.deferred || u.calls.deferred == []
    ensures DeliverOk(u, q)
  {
    hide DeliverOk;
    CalmKeeps(s, u, p, q);
  }

  /** Nothing else waits to write the delivery of ticket t. */
  ghost predicate NoRival(c: Calls, t: nat) {
    && (forall id :: id in c.pending && Plain(c.pending[id]) ==> c.pending[id].ticket != t)
    && (forall j :: 0 <= j < |c.deferred| ==> c.deferred[j].ticket != t)
  }

  /** A delivery may be written: for the first time, or to start a run after it was declined. */
  ghost predicate Clear(sent: seq<Down>, c: Calls, r: Request, seeded: bool, p: Past) {
    && r.ticket in p.known
    && (r.verb == Deliver ==>
          && NoRival(c, r.ticket)
          && (if seeded then OnlyDeclined(sent, r.ticket, p.declined) else Unsent(sent, r.ticket)))
  }

  lemma AppendWrites(sent: seq<Down>, c: Calls, r: Request, p: Past, cut: bool)
    requires WritesOk(sent, c, p) && Clear(sent, c, r, r.run.Some?, p) && c.nextOut + 1 !in c.pending
    ensures var id := c.nextOut + 1;
      WritesOk(if cut then sent else sent + [Call(id, r)], c.(nextOut := id, pending := c.pending[id := r]), p)
  {
    var id := c.nextOut + 1;
    var q, d := if cut then sent else sent + [Call(id, r)], c.(nextOut := id, pending := c.pending[id := r]);
    assert forall i :: 0 <= i < |sent| ==> q[i] == sent[i];
    forall k | k in d.pending && Plain(d.pending[k])
      ensures OnlyAs(q, d.pending[k].ticket, k)
    {
      if k != id {
        assert OnlyAs(sent, c.pending[k].ticket, k);
      }
    }
    forall j | 0 <= j < |d.deferred|
      ensures OnlyDeclined(q, d.deferred[j].ticket, p.declined)
    {
      assert OnlyDeclined(sent, c.deferred[j].ticket, p.declined);
    }
  }

  lemma NextFree(s: State)
    requires TablesOk(s)
    ensures s.calls.nextOut + 1 !in s.calls.pending
  {
  }

  lemma WriteDelivers(e: Env, s: State, r: Request, p: Past)
    requires DeliverOk(s, p) && Clear(s.wire.sent, s.calls, r, r.run.Some?, p) && s.calls.nextOut + 1 !in s.calls.pending
    ensures DeliverOk(Write(e, s, r), p)
  {
    hide Noted, RefuseRun, Clear, WritesOk;
    var id := s.calls.nextOut + 1;
    var s1 := s.(calls := s.calls.(nextOut := id));
    var s2 := s1.(wire := Send(e, s.wire, Call(id, r)));
    RefuseSame(s1, r.run);
    RefuseSame(s2, r.run);
    if (CarriesBody(r.verb) && !e.fits(id)) || !e.room(s.wire.attempts) {
      QuietCalm(s, Write(e, s, r), p, p);
    } else {
      AppendWrites(s.wire.sent, s.calls, r, p, s.wire.cut);
    }
  }

  lemma CloseDelivers(e: Env, s: State, p: Past)
    requires DeliverOk(s, p) && (s.calls.closeCall.Some? ==> s.calls.closeCall.value.verb == Close)
    ensures DeliverOk(WriteDeferredClose(e, s), p)
  {
    assert Calm(s, WriteDeferredClose(e, s), p.known);
    hide DeliverOk;
    CalmKeeps(s, WriteDeferredClose(e, s), p, p);
  }

  lemma BeginCloseDelivers(e: Env, s: State, r: Request, p: Past)
    requires DeliverOk(s, p) && r.verb == Close && r.ticket in p.known
    ensures DeliverOk(BeginClose(e, s, r), p)
  {
    hide GivenUp, DeliverOk;
    assert Calm(s, BeginClose(e, s, r), p.known);
    CalmKeeps(s, BeginClose(e, s, r), p, p);
  }

  lemma IssueDelivers(e: Env, s: State, r0: Request, p: Past)
    requires DeliverOk(s, p) && Clear(s.wire.sent, s.calls, r0, Seeds(s, r0), p) && r0.run.None?
    requires s.calls.nextOut + 1 !in s.calls.pending
    ensures DeliverOk(Issue(e, s, r0), p)
  {
    hide Write, BeginClose, Refusal, DeliverOk, Noted, NoRival;
    var r, u := Normalized(r0), Issue(e, s, r0);
    if Refusal(s, r0) != 0 {
      QuietCalm(s, u, p, p);
    } else if r.verb == Close {
      BeginCloseDelivers(e, s, r, p);
    } else if r.verb == Execute || Seeds(s, r) {
      var s1 := ReserveRun(e, s);
      var s2 := s1.(runs := s1.runs.(fromTrace := r.verb == Deliver && r.traceCopy,
                                     fromCompletion := r.verb == Deliver && r.completion));
      QuietCalm(s, s2, p, p);
      WriteDelivers(e, s2, r.(run := s1.runs.current), p);
    } else {
      WriteDelivers(e, s, r, p);
    }
  }

  // ---- the queue ----

  /** What holds between two instructions of the loop. */
  ghost predicate Steady(s: State, p: Past) { TablesOk(s) && QueueOk(s) && Spent(s) && DeliverOk(s, p) }

  lemma SameSpent(s: State, u: State)
    requires Same(s, u) && Spent(s)
    ensures Spent(u)
  {
    hide Tokens, Dues, Promises;
  }

  lemma OccursIn(rs: seq<Request>, j: nat)
    requires j < |rs|
    ensures Occurs(TicketsOf(rs), rs[j].ticket) >= 1
    ensures forall k :: 0 <= k < |rs| && k != j && rs[k].ticket == rs[j].ticket ==> Occurs(TicketsOf(rs), rs[j].ticket) >= 2
  {
    var ts := TicketsOf(rs);
    assert ts[j] in multiset(ts);
    hide TicketsOf;
    forall k | 0 <= k < |rs| && k != j && rs[k].ticket == rs[j].ticket
      ensures Occurs(ts, rs[j].ticket) >= 2
    {
      TwiceIn(ts, if k < j then k else j, if k < j then j else k);
    }
  }

  lemma TwiceIn(ts: seq<nat>, a: nat, b: nat)
    requires a < b < |ts| && ts[a] == ts[b]
    ensures Occurs(ts, ts[a]) >= 2
  {
    var x, y := ts[..b], ts[b..];
    assert ts == x + y && x[a] == ts[a] && y[0] == ts[b];
    assert x[a] in multiset(x) && y[0] in multiset(y);
  }

  /** A pending call owes an answer, over and above those already given on its ticket. */
  lemma OwedCounts(s: State, id: nat)
    requires TablesOk(s) && id in s.calls.pending && Plain(s.calls.pending[id])
    ensures Tokens(s, s.calls.pending[id].ticket) >= |At(s.books.replies, s.calls.pending[id].ticket)| + 1
  {
    var t := s.calls.pending[id].ticket;
    assert Holds(s.calls, id, t, false);
    assert id in Holders(s.calls, t, false);
  }

  /** A promised delivery has been answered, so nothing else owes an answer on its ticket. */
  lemma PromisedAlone(s: State)
    requires TablesOk(s) && QueueOk(s) && Spent(s) && s.calls.deferred != []
    ensures NoRival(Popped(s).calls, s.calls.deferred[0].ticket)
  {
    var rs := s.calls.deferred;
    var t := rs[0].ticket;
    OccursIn(rs, 0);
    assert Occurs(s.books.queued, t) == Occurs(s.books.popped, t) + Occurs(TicketsOf(rs), t);
    assert Tokens(s, t) <= 1;
    forall id | id in s.calls.pending && Plain(s.calls.pending[id])
      ensures s.calls.pending[id].ticket != t
    {
      OwedCounts(s, id);
    }
  }

  lemma UnusedAlone(s: State, t: nat)
    requires TablesOk(s) && QueueOk(s) && Tokens(s, t) == 0
    ensures NoRival(s.calls, t)
  {
    forall id | id in s.calls.pending && Plain(s.calls.pending[id])
      ensures s.calls.pending[id].ticket != t
    {
      OwedCounts(s, id);
    }
    forall j | 0 <= j < |s.calls.deferred|
      ensures s.calls.deferred[j].ticket != t
    {
      OccursIn(s.calls.deferred, j);
      assert Occurs(s.books.queued, t) == Occurs(s.books.popped, t) + Occurs(TicketsOf(s.calls.deferred), t);
    }
  }

  lemma PoppedDelivers(s: State, p: Past)
    requires Steady(s, p) && s.calls.deferred != [] && s.runs.current.None?
    ensures var m, r := Popped(s), s.calls.deferred[0];
      DeliverOk(m, p) && Clear(m.wire.sent, m.calls, r, Seeds(m, r), p) && Seeds(m, r) && r.run.None?
  {
    hide Tokens, QueueOk, Spent, OnlyAs, CallOk, NoRival, FramesOk, OnlyDeclined;
    PromisedAlone(s);
    var m := Popped(s);
    assert forall j :: 0 <= j < |m.calls.deferred| ==> m.calls.deferred[j] == s.calls.deferred[j + 1];
    CalmKeeps(s, m, p, p);
    HeadShape(s);
  }

  lemma SteadyMeans(s: State, p: Past)
    ensures Steady(s, p) <==> TablesOk(s) && QueueOk(s) && Spent(s) && DeliverOk(s, p)
  {
  }

  lemma {:induction false} StartDeferredDelivers(e: Env, s: State, p: Past)
    requires Steady(s, p) && !s.wire.closed
    ensures DeliverOk(StartDeferred(e, s), p)
    decreases |s.calls.deferred|
  {
    hide Steady, Tokens, Dues, Promises, Issue, TablesOk, QueueOk, Spent, DeliverOk, Same, Clear;
    SteadyMeans(s, p);
    if s.runs.current.None? && s.calls.deferred != [] {
      var r, m := s.calls.deferred[0], Issue(e, Popped(s), s.calls.deferred[0]);
      HeadShape(s);
      PoppedDelivers(s, p);
      PoppedLoses(s);
      NextFree(Popped(s));
      IssueDelivers(e, Popped(s), r, p);
      IssueGains(e, Popped(s), r);
      IssueOpen(e, Popped(s), r);
      Balanced(s, Popped(s), m, r);
      SameSpent(s, m);
      PoppedQueue(s);
      IssueQueue(e, Popped(s), r);
      SteadyMeans(m, p);
      StartDeferredDelivers(e, m, p);
    }
  }

  // ---- responses ----

  /** There is room for one more token on r's ticket. */
  ghost predicate Roomy(s: State, r: Request) { forall k: nat :: Tokens(s, k) + One(!r.scheduled && k == r.ticket) <= 1 }

  lemma RoomyAfter(s: State, m: State, r: Request)
    requires Gains(m, s, r) && Spent(s)
    ensures Roomy(m, r)
  {
    hide Tokens, Dues, Promises;
  }

  lemma RoomySpent(m: State, u: State, r: Request)
    requires Roomy(m, r) && Gains(m, u, r)
    ensures Spent(u)
  {
    hide Tokens, Dues, Promises;
  }

  lemma FailDelivers(e: Env, s: State, r: Request, code: int, p: Past)
    requires TablesOk(s) && !s.wire.closed && QueueOk(s) && Roomy(s, r) && DeliverOk(s, p)
    ensures DeliverOk(FailResponse(e, s, r, code), p)
  {
    hide Tokens, Dues, Promises, CallTables, RefuseRun, Noted, StartDeferred, DeliverOk, QueueOk, Roomy, Same, Gains, At;
    var s1 := if r.verb == Execute || code != INTERNAL then RefuseRun(s, r.run) else s;
    RefuseSame(s, r.run);
    var s2 := AnswerRouted(s1, r, Refused(code));
    AnswerAfterRefusal(s, s1, r, Refused(code));
    RoomySpent(s, s2, r);
    AnswerQuiet(s1, r, Refused(code));
    QuietQueue(s, s2);
    QuietCalm(s, s2, p, p);
    StartDeferredDelivers(e, s2, p);
  }

  lemma AnswerAfterRefusal(s: State, s1: State, r: Request, a: Answer)
    requires s1 == s || s1 == RefuseRun(s, r.run)
    ensures Gains(s, AnswerRouted(s1, r, a), r)
  {
    hide Tokens, Dues, Promises, RefuseRun, Noted;
    RefuseSame(s, r.run);
    TablesDecide(s, s1);
    AnswerGains(s1, r, a);
    SameThenGains(s, s1, AnswerRouted(s1, r, a), r);
  }

  lemma RetainDelivers(e: Env, s: State, r: Request, p: Past)
    requires TablesOk(s) && DeliverOk(s, p) && Plain(r) && !s.entry.peer
    requires NoRival(s.calls, r.ticket) && OnlyDeclined(s.wire.sent, r.ticket, p.declined) && r.ticket in p.known
    ensures DeliverOk(Retain(e, s, r), p)
  {
    hide Issue, HasRunCapacity, TablesOk;
    if s.runs.current.None? {
      NextFree(s);
      IssueDelivers(e, s, r, p);
    } else if !HasRunCapacity(s) {
      QuietCalm(s, Retain(e, s, r), p, p);
    } else {
      assert DeliverOk(Retain(e, s, r), p);
    }
  }

  /** An answer to r is settled: r is written again only if it was just declined and starts a run this time. */
  lemma SettleDelivers(e: Env, s: State, r: Request, response: Response, p: Past)
    requires TablesOk(s) && !s.wire.closed && QueueOk(s) && Roomy(s, r) && DeliverOk(s, p) && r.ticket in p.known
    requires Plain(r) && response == Failed(NOT_RUNNING) ==>
      NoRival(s.calls, r.ticket) && OnlyDeclined(s.wire.sent, r.ticket, p.declined)
    ensures DeliverOk(SettleResponse(e, s, r, response), p)
  {
    hide Tokens, TablesOk, QueueOk, Roomy, DeliverOk, Issue, Retain, FailResponse, Noted, RecordAcknowledgment, NoRival, OnlyDeclined;
    var u := SettleResponse(e, s, r, response);
    if r.destination == s.entry.identity && s.entry.attached && r.verb != Close && Retained(s, r, response) {
      RetainDelivers(e, s, r, p);
    } else if r.destination == s.entry.identity && s.entry.attached && r.verb != Close && response.Failed? {
      FailDelivers(e, s, r, response.code, p);
    } else if r.destination == s.entry.identity && s.entry.attached && r.verb == Execute && r.collect
              && response.Succeeded? && response.ref.Some? && response.ref == r.run {
      NextFree(s);
      IssueDelivers(e, s, Collector(r, response.ref.value), p);
    } else {
      QuietCalm(s, u, p, p);
    }
  }

  function Declining(s: State, event: Event): set<nat> {
    if event.Answered? && event.response == Failed(NOT_RUNNING) && !s.wire.stopping then {event.id} else {}
  }

  lemma PendingDeclined(s: State, id: nat, p: Past)
    requires DeliverOk(s, p) && id in s.calls.pending && Plain(s.calls.pending[id]) && id in p.declined
    ensures OnlyDeclined(s.wire.sent, s.calls.pending[id].ticket, p.declined)
  {
    assert OnlyAs(s.wire.sent, s.calls.pending[id].ticket, id);
  }

  lemma ReceiveDelivers(e: Env, s: State, id: nat, response: Response, p: Past)
    requires Steady(s, p) && !s.wire.closed
    ensures var q := p.(declined := p.declined + if response == Failed(NOT_RUNNING) then {id} else {});
      DeliverOk(ReceiveResponse(e, s, id, response), q)
  {
    hide Tokens, Dues, Promises, TablesOk, QueueOk, Spent, Roomy, DeliverOk, SettleResponse, WriteDeferredClose, Same, Gains, NoRival, OnlyDeclined, At;
    var q := p.(declined := p.declined + if response == Failed(NOT_RUNNING) then {id} else {});
    if id !in s.calls.pending {
      QuietCalm(s, HardStop(s), p, q);
    } else {
      var r, m := s.calls.pending[id], Without(s, id);
      PendingShape(s, id);
      PendingKnown(s, id, p);
      WithoutLoses(s, id);
      QuietCalm(s, s, p, q);
      QuietCalm(s, m, p, q);
      QuietQueue(s, m);
      if r.verb == Close {
        QuietCalm(m, SettleResponse(e, m, r, response), q, q) by { CloseSettled(e, m, r, response); }
      } else {
        RoomyAfter(s, m, r);
        SpentUnused(s, m, r);
        if Plain(r) && response == Failed(NOT_RUNNING) {
          UnusedAlone(m, r.ticket);
          PendingDeclined(s, id, q);
        }
        SettleDelivers(e, m, r, response, q);
        SettleGains(e, m, r, response);
        CloseShape(SettleResponse(e, m, r, response));
        CloseDelivers(e, SettleResponse(e, m, r, response), q);
      }
    }
  }

  lemma PendingKnown(s: State, id: nat, p: Past)
    requires DeliverOk(s, p) && id in s.calls.pending
    ensures s.calls.pending[id].ticket in p.known
  {
  }

  lemma CloseShape(s: State)
    requires TablesOk(s)
    ensures s.calls.closeCall.Some? ==> s.calls.closeCall.value.verb == Close
  {
  }

  lemma CloseSettled(e: Env, s: State, r: Request, response: Response)
    requires r.verb == Close
    ensures var u := SettleResponse(e, s, r, response); u.calls == s.calls && u.wire.sent == s.wire.sent
  {
  }

  // ---- whole runs ----

  function Ahead(e: Env, l: Loop, a: Action, p: Past): Past
    requires Allowed(l, a)
  {
    match a
    case Post(_) => p
    case Take => p.(known := p.known + {l.inbox[0].ticket})
    case Own(event) => Past(p.declined + Declining(l.s, event), p.known + (Act(e, l, a).seen - l.seen))
  }

  /** The calls that were answered with NotRunning in a run, and the tickets it took. */
  function History(e: Env, l: Loop, actions: seq<Action>, p: Past): Past
    requires Possible(e, l, actions)
    decreases |actions|
  {
    if actions == [] then p else History(e, Act(e, l, actions[0]), actions[1..], Ahead(e, l, actions[0], p))
  }

  ghost predicate StoryOk(l: Loop, p: Past) {
    && LoopOk(l) && DeliverOk(l.s, p) && p.known <= l.seen
    && forall i :: 0 <= i < |l.inbox| ==> l.inbox[i].ticket !in p.known
  }

  lemma KnownAlone(s: State, t: nat, p: Past)
    requires DeliverOk(s, p) && t !in p.known
    ensures NoRival(s.calls, t) && Unsent(s.wire.sent, t)
  {
  }

  lemma TakeDelivers(e: Env, l: Loop, p: Past)
    requires StoryOk(l, p) && l.inbox != []
    ensures StoryOk(Act(e, l, Take), Ahead(e, l, Take, p))
  {
    hide Tokens, Dues, Promises, DeliverOk, Issue, Noted, QueueOk, NoRival, Unsent, OnlyDeclined, CallOk;
    var r, q := l.inbox[0], Ahead(e, l, Take, p);
    TakeOk(e, l);
    KnownAlone(l.s, r.ticket, p);
    QuietCalm(l.s, l.s, p, q);
    UnsentDeclined(l.s.wire.sent, r.ticket, q.declined);
    NextFree(l.s);
    QuietCalm(l.s, AnswerRouted(l.s, r, Refused(NOT_CONNECTED)), p, q);
    IssueDelivers(e, l.s, r, q);
    InboxDistinct(l);
    InboxSeen(l);
  }

  lemma UnsentDeclined(sent: seq<Down>, t: nat, declined: set<nat>)
    requires Unsent(sent, t)
    ensures OnlyDeclined(sent, t, declined)
  {
  }

  lemma InboxDistinct(l: Loop)
    requires LoopOk(l) && l.inbox != []
    ensures forall i :: 0 < i < |l.inbox| ==> l.inbox[i].ticket != l.inbox[0].ticket
  {
    hide Tokens, Dues, Promises, TablesOk, QueueOk, Fresh;
    OccursIn(l.inbox, 0);
    assert Tokens(l.s, l.inbox[0].ticket) + Occurs(TicketsOf(l.inbox), l.inbox[0].ticket) == One(l.inbox[0].ticket in l.seen);
  }

  lemma ReadyDelivers(e: Env, s: State, call: nat, id: RunId, done: bool, p: Past)
    requires Steady(s, p) && !s.wire.closed
    ensures DeliverOk(TurnReady(e, s, call, id, done), p)
  {
    hide Tokens, CallTables, QueueOk, Spent, DeliverOk, StartDeferred, At, Same;
    if !ReadyMatches(s, id) {
      QuietCalm(s, HardStop(s), p, p);
    } else {
      var m := TurnAcked(e, s, call, done);
      AckCalm(e, s, call, done, p);
      QuietQueue(s, m);
      TablesDecide(s, m);
      SameSpent(s, m);
      StartDeferredDelivers(e, m, p);
      QuietCalm(StartDeferred(e, m), TurnReady(e, s, call, id, done), p, p);
    }
  }

  lemma AckCalm(e: Env, s: State, call: nat, done: bool, p: Past)
    requires DeliverOk(s, p)
    ensures DeliverOk(TurnAcked(e, s, call, done), p)
  {
    assert Calm(s, TurnAcked(e, s, call, done), p.known);
    hide DeliverOk;
    CalmKeeps(s, TurnAcked(e, s, call, done), p, p);
  }

  lemma SettledCalm(s: State, m: State, code: int, p: Past)
    requires DeliverOk(s, p) && m.calls == s.calls && m.wire.sent == s.wire.sent
    ensures DeliverOk(SettlePending(m, code), p)
  {
    hide DeliverOk, GivenUp, Settled;
    QuietCalm(s, SettlePending(m, code), p, p);
  }

  lemma OwnDelivers(e: Env, s: State, event: Event, p: Past, q: Past)
    requires Steady(s, p) && !event.Routed? && p.known <= q.known && q.declined == p.declined + Declining(s, event)
    requires event.Retire? && Handle(e, s, event) != s ==> event.ticket in q.known
    ensures DeliverOk(Handle(e, s, event), q)
  {
    hide Tokens, CallTables, QueueOk, Spent, DeliverOk, ReceiveResponse, TurnReady, SettlePending, BeginClose;
    QuietCalm(s, s, p, q);
    match event
    case Answered(id, response) =>
      if !s.wire.stopping {
        ReceiveDelivers(e, s, id, response, p);
        var m := ReceiveResponse(e, s, id, response);
        QuietCalm(m, m, p.(declined := q.declined), q);
      }
    case Ready(call, id, done) =>
      if !s.wire.stopping { ReadyDelivers(e, s, call, id, done, q); }
    case Disconnected =>
      var m := s.(wire := s.wire.(stopping := true, closed := true, cut := true), clock := s.clock.(armed := false),
                  entry := s.entry.(attached := false, running := false, claimed := s.entry.claimed || !s.entry.peer));
      SettledCalm(s, m, NOT_CONNECTED, q);
    case Retire(ticket) =>
      if Handle(e, s, event) != s {
        BeginCloseDelivers(e, s, Request(ticket, s.entry.identity, Close, None, None, false, false, false, false), q);
      }
    case CloseExpired => QuietCalm(s, Handle(e, s, event), p, q);
    case Renamed(identity) =>
      SettledCalm(s, s, NOT_CONNECTED, q);
      if s.entry.peer && !s.wire.stopping {
        QuietCalm(SettlePending(s, NOT_CONNECTED), Identify(s, identity), q, q);
      }
    case Tick(now) => QuietCalm(s, Handle(e, s, event), p, q);
  }

  lemma LoopSpent(l: Loop)
    requires LoopOk(l)
    ensures Spent(l.s) && TablesOk(l.s) && QueueOk(l.s)
  {
    hide Tokens, Dues, Promises, TablesOk, QueueOk;
    forall k: nat ensures Tokens(l.s, k) <= 1 {
      assert Tokens(l.s, k) + Occurs(TicketsOf(l.inbox), k) == One(k in l.seen);
    }
  }

  lemma InboxSeen(l: Loop)
    requires LoopOk(l)
    ensures forall i :: 0 <= i < |l.inbox| ==> l.inbox[i].ticket in l.seen
  {
    hide Tokens, Dues, Promises, TablesOk, QueueOk, Fresh;
    forall i | 0 <= i < |l.inbox|
      ensures l.inbox[i].ticket in l.seen
    {
      OccursIn(l.inbox, i);
      assert Tokens(l.s, l.inbox[i].ticket) + Occurs(TicketsOf(l.inbox), l.inbox[i].ticket) == One(l.inbox[i].ticket in l.seen);
    }
  }

  lemma ActDelivers(e: Env, l: Loop, a: Action, p: Past)
    requires StoryOk(l, p) && Allowed(l, a)
    ensures StoryOk(Act(e, l, a), Ahead(e, l, a, p))
  {
    hide LoopOk, DeliverOk, Handle, Fresh, TablesOk, QueueOk, Spent;
    InboxSeen(l);
    match a
    case Post(r) => PostOk(l, r);
    case Take => TakeDelivers(e, l, p);
    case Own(event) =>
      OwnOk(e, l, event);
      LoopSpent(l);
      OwnDelivers(e, l.s, event, p, Ahead(e, l, a, p));
  }

  lemma {:induction false} StoryHolds(e: Env, l: Loop, actions: seq<Action>, p: Past)
    requires StoryOk(l, p) && Possible(e, l, actions)
    ensures StoryOk(After(e, l, actions), History(e, l, actions, p))
    decreases |actions|
  {
    hide StoryOk, Act, Ahead, Allowed;
    if actions != [] {
      ActDelivers(e, l, actions[0], p);
      StoryHolds(e, Act(e, l, actions[0]), actions[1..], Ahead(e, l, actions[0], p));
    }
  }

  /**
    In every run, of two writes of one delivery the earlier started no run and
    was answered with NotRunning, and the later starts a run.
   */
  lemma WrittenAgainOnlyWhenDeclined(e: Env, identity: nat, peer: bool, launching: bool, actions: seq<Action>, t: nat, i: nat, j: nat)
    requires Possible(e, Begun(identity, peer, launching), actions)
    requires var sent := After(e, Begun(identity, peer, launching), actions).s.wire.sent;
      i < j < |sent| && Delivers(sent[i], t) && Delivers(sent[j], t)
    ensures var sent := After(e, Begun(identity, peer, launching), actions).s.wire.sent;
      && sent[i].request.run.None? && sent[j].request.run.Some?
      && sent[i].id in History(e, Begun(identity, peer, launching), actions, Past({}, {})).declined
  {
    hide Possible, After, History, LoopOk;
    StartOk(identity, peer, launching);
    StoryHolds(e, Begun(identity, peer, launching), actions, Past({}, {}));
  }

  /** So no delivery is ever written three times. */
  lemma NeverThrice(e: Env, identity: nat, peer: bool, launching: bool, actions: seq<Action>, t: nat, i: nat, j: nat, k: nat)
    requires Possible(e, Begun(identity, peer, launching), actions)
    requires var sent := After(e, Begun(identity, peer, launching), actions).s.wire.sent;
      i < j < k < |sent| && Delivers(sent[i], t) && Delivers(sent[j], t)
    ensures !Delivers(After(e, Begun(identity, peer, launching), actions).s.wire.sent[k], t)
  {
    hide Possible, After;
    WrittenAgainOnlyWhenDeclined(e, identity, peer, launching, actions, t, i, j);
    if Delivers(After(e, Begun(identity, peer, launching), actions).s.wire.sent[k], t) {
      WrittenAgainOnlyWhenDeclined(e, identity, peer, launching, actions, t, j, k);
    }
  }
}
