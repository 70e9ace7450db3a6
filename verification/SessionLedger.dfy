/**
  Accounting for reply channels: every request posted to a session is answered
  at most once at all times, and exactly once when its loop returns, whatever
  the worker or peer on the other end of the wire does. Both facts come from a
  conservation law: each ticket is a token that is in exactly one place.
 */
module SessionLedger {
  import opened Common
  import opened RunIds
  import opened SessionModel

  function One(b: bool): nat { if b then 1 else 0 }

  function Occurs(ts: seq<nat>, t: nat): nat { multiset(ts)[t] }

  function TicketsOf(rs: seq<Request>): seq<nat> { seq(|rs|, i requires 0 <= i < |rs| => rs[i].ticket) }

  /** Answers given on t, plus calls that still owe one, plus the close call. */
  function Tokens(s: State, t: nat): nat {
    |At(s.books.replies, t)| + |Holders(s.calls, t, false)| + One(CloseTicket(s.calls) == Some(t))
  }

  /** Outcomes logged for t, plus runs it seeded that are still out, plus its places in the queue. */
  function Dues(s: State, t: nat): nat {
    |At(s.books.notes, t)| + |Holders(s.calls, t, true)| + Occurs(TicketsOf(s.calls.deferred), t)
  }

  /** Promises made for t. */
  function Promises(s: State, t: nat): nat { Occurs(s.books.queued, t) }

  ghost predicate OneMore(s: State, u: State, t: nat) {
    && (forall k: nat :: Tokens(u, k) == Tokens(s, k) + One(k == t))
    && (forall k: nat :: Dues(u, k) - Promises(u, k) == Dues(s, k) - Promises(s, k))
  }

  ghost predicate Same(s: State, u: State) {
    && (forall k: nat :: Tokens(u, k) == Tokens(s, k))
    && (forall k: nat :: Dues(u, k) - Promises(u, k) == Dues(s, k) - Promises(s, k))
  }

  ghost predicate OneDue(s: State, u: State, t: nat) {
    && (forall k: nat :: Tokens(u, k) == Tokens(s, k))
    && (forall k: nat :: Dues(u, k) - Promises(u, k) == Dues(s, k) - Promises(s, k) + One(k == t))
  }

  /** One more token: an answer owed to a caller, or the outcome of a scheduled delivery. */
  ghost predicate Gains(s: State, u: State, r: Request) {
    if r.scheduled then OneDue(s, u, r.ticket) else OneMore(s, u, r.ticket)
  }

  // ---- the pending table ----

  /** A pending call: the close call itself, a seeded run of a promised delivery, or a call with its own caller. */
  predicate CallOk(r: Request, closeCall: Option<Request>, identity: nat) {
    && r.destination == identity
    && (if r.verb == Close then closeCall == Some(r)
        else if r.scheduled then r.verb == Deliver && r.run.Some?
        else closeCall.None? || closeCall.value.ticket != r.ticket)
  }

  /** Shape of the tables that the accounting relies on. */
  predicate CallTables(c: Calls, identity: nat) {
    && (forall id :: id in c.pending ==> 1 <= id <= c.nextOut && CallOk(c.pending[id], c.closeCall, identity))
    && (forall i :: 0 <= i < |c.deferred| ==>
          c.deferred[i].scheduled && c.deferred[i].verb == Deliver && c.deferred[i].destination == identity)
    && (c.closeCall.Some? ==>
          c.closeCall.value.verb == Close && !c.closeCall.value.scheduled && c.closeCall.value.destination == identity)
  }

  predicate TablesOk(s: State) {
    && CallTables(s.calls, s.entry.identity)
    && (s.wire.closed ==> s.wire.stopping && s.calls.pending == map[] && s.calls.deferred == [])
    && s.entry.attached == !s.wire.closed
    && (s.entry.peer ==> s.calls.deferred == [] && s.calls.closeCall.None?)
  }

  lemma CallTablesAdd(c: Calls, identity: nat, r: Request)
    requires CallTables(c, identity) && r.destination == identity
    requires r.scheduled ==> r.verb == Deliver && r.run.Some?
    requires if r.verb == Close then c.closeCall == Some(r) else r.scheduled || CloseTicket(c) != Some(r.ticket)
    ensures CallTables(c.(nextOut := c.nextOut + 1, pending := c.pending[c.nextOut + 1 := r]), identity)
    ensures CallTables(c.(nextOut := c.nextOut + 1), identity)
  {
    assert CallOk(r, c.closeCall, identity);
    hide CallOk;
  }

  lemma HoldersAdd(c: Calls, id: nat, r: Request, t: nat, scheduled: bool)
    requires id !in c.pending
    ensures var d := c.(nextOut := id, pending := c.pending[id := r]);
      |Holders(d, t, scheduled)| == |Holders(c, t, scheduled)| +
        One(r.ticket == t && r.scheduled == scheduled && (scheduled || CloseTicket(c) != Some(t)))
  {
    var d := c.(nextOut := id, pending := c.pending[id := r]);
    var more := r.ticket == t && r.scheduled == scheduled && (scheduled || CloseTicket(c) != Some(t));
    assert forall k: nat :: Holds(d, k, t, scheduled) <==> Holds(c, k, t, scheduled) || (more && k == id);
    assert Holders(d, t, scheduled) == Holders(c, t, scheduled) + (if more then {id} else {});
  }

  lemma HoldersLess(c: Calls, id: nat, t: nat, scheduled: bool)
    requires id in c.pending
    ensures var d := c.(pending := c.pending - {id});
      var r := c.pending[id];
      |Holders(d, t, scheduled)| == |Holders(c, t, scheduled)| -
        One(r.ticket == t && r.scheduled == scheduled && (scheduled || CloseTicket(c) != Some(t)))
  {
    var d, r := c.(pending := c.pending - {id}), c.pending[id];
    var less := r.ticket == t && r.scheduled == scheduled && (scheduled || CloseTicket(c) != Some(t));
    assert forall k: nat :: Holds(d, k, t, scheduled) <==> Holds(c, k, t, scheduled) && k != id;
    assert Holders(d, t, scheduled) == Holders(c, t, scheduled) - (if less then {id} else {});
  }

  // ---- answering and writing ----

  lemma AnswerGains(s: State, r: Request, a: Answer)
    ensures Gains(s, AnswerRouted(s, r, a), r)
  {
    var u := AnswerRouted(s, r, a);
    assert forall k: nat :: k != r.ticket ==> At(u.books.replies, k) == At(s.books.replies, k) && At(u.books.notes, k) == At(s.books.notes, k);
  }

  lemma RefuseSame(s: State, id: Option<RunId>)
    ensures RefuseRun(s, id).calls == s.calls && RefuseRun(s, id).books == s.books
    ensures RefuseRun(s, id).wire == s.wire && RefuseRun(s, id).entry.identity == s.entry.identity
    ensures RefuseRun(s, id).entry.attached == s.entry.attached && RefuseRun(s, id).entry.peer == s.entry.peer
  {
  }

  /** Tokens and dues depend on the tables and the books alone. */
  lemma TablesDecide(s: State, u: State)
    requires u.books == s.books && u.calls.pending == s.calls.pending
    requires u.calls.closeCall == s.calls.closeCall && u.calls.deferred == s.calls.deferred
    ensures Same(s, u)
  {
    assert forall k: nat, b: bool :: Holders(u.calls, k, b) == Holders(s.calls, k, b);
  }

  lemma PendGains(s: State, u: State, r: Request)
    requires s.calls.nextOut + 1 !in s.calls.pending && (r.scheduled || CloseTicket(s.calls) != Some(r.ticket))
    requires u.books == s.books
    requires u.calls == s.calls.(nextOut := s.calls.nextOut + 1, pending := s.calls.pending[s.calls.nextOut + 1 := r])
    ensures Gains(s, u, r)
  {
    hide Holders, Occurs;
    forall k: nat, b: bool
      ensures |Holders(u.calls, k, b)| ==
              |Holders(s.calls, k, b)| + One(r.ticket == k && r.scheduled == b && (b || CloseTicket(s.calls) != Some(k)))
    {
      HoldersAdd(s.calls, s.calls.nextOut + 1, r, k, b);
    }
  }

  lemma SameThenGains(s: State, m: State, u: State, r: Request)
    requires Same(s, m) && Gains(m, u, r)
    ensures Gains(s, u, r)
  {
    hide Tokens, Dues, Promises;
  }

  /** A call is either pending afterwards, or answered: in both cases exactly one token. */
  lemma WriteGains(e: Env, s: State, r: Request)
    requires TablesOk(s) && (r.scheduled || CloseTicket(s.calls) != Some(r.ticket))
    ensures Gains(s, Write(e, s, r), r)
  {
    hide Tokens, Dues, Promises, Same, Gains, RefuseRun, Noted;
    var id := s.calls.nextOut + 1;
    var s1 := s.(calls := s.calls.(nextOut := id));
    var s2 := s1.(wire := Send(e, s.wire, Call(id, r)));
    if (CarriesBody(r.verb) && !e.fits(id)) || !e.room(s.wire.attempts) {
      var m0 := if CarriesBody(r.verb) && !e.fits(id) then s1 else s2;
      var m := RefuseRun(m0, r.run);
      RefuseSame(m0, r.run);
      TablesDecide(s, m);
      AnswerGains(m, r, Refused(NOT_CONNECTED));
      SameThenGains(s, m, AnswerRouted(m, r, Refused(NOT_CONNECTED)), r);
    } else {
      PendGains(s, Write(e, s, r), r);
    }
  }

  lemma WriteTables(e: Env, s: State, r: Request)
    requires TablesOk(s) && !s.wire.closed && r.verb != Close && r.destination == s.entry.identity
    requires if r.scheduled then r.verb == Deliver && r.run.Some? else CloseTicket(s.calls) != Some(r.ticket)
    ensures TablesOk(Write(e, s, r))
  {
    hide CallTables, RefuseRun;
    CallTablesAdd(s.calls, s.entry.identity, r);
    var id := s.calls.nextOut + 1;
    var s1 := s.(calls := s.calls.(nextOut := id));
    RefuseSame(s1, r.run);
    RefuseSame(s1.(wire := Send(e, s.wire, Call(id, r))), r.run);
  }

  lemma LaunchGains(e: Env, s: State, r: Request)
    requires TablesOk(s) && !s.wire.closed && r.verb != Close && r.destination == s.entry.identity
    requires if r.scheduled then r.verb == Deliver else CloseTicket(s.calls) != Some(r.ticket)
    ensures Gains(s, Launch(e, s, r), r) && TablesOk(Launch(e, s, r))
  {
    hide Tokens, Dues, Promises, Write;
    var s1 := ReserveRun(e, s);
    var s2 := s1.(runs := s1.runs.(fromTrace := r.verb == Deliver && r.traceCopy,
                                   fromCompletion := r.verb == Deliver && r.completion));
    var q := r.(run := s1.runs.current);
    TablesDecide(s, s2);
    WriteGains(e, s2, q);
    WriteTables(e, s2, q);
    assert Gains(s2, Write(e, s2, q), r);
    SameThenGains(s, s2, Write(e, s2, q), r);
  }

  lemma OccursFirst(rs: seq<Request>, k: nat)
    requires rs != []
    ensures Occurs(TicketsOf(rs), k) == One(rs[0].ticket == k) + Occurs(TicketsOf(rs[1..]), k)
  {
    assert TicketsOf(rs) == [rs[0].ticket] + TicketsOf(rs[1..]);
  }

  lemma OccursNone(k: nat)
    ensures Occurs(TicketsOf([]), k) == 0
  {
    assert TicketsOf([]) == [];
  }

  lemma {:induction false} GivenUpDues(b: Books, rs: seq<Request>, code: int, k: nat)
    requires forall i :: 0 <= i < |rs| ==> rs[i].scheduled
    ensures |At(GivenUp(b, rs, code).notes, k)| == |At(b.notes, k)| + Occurs(TicketsOf(rs), k)
    ensures GivenUp(b, rs, code).replies == b.replies && GivenUp(b, rs, code).queued == b.queued
    decreases |rs|
  {
    if rs != [] {
      OccursFirst(rs, k);
      GivenUpDues(Noted(b, rs[0], Refused(code)).(popped := b.popped + [rs[0].ticket]), rs[1..], code, k);
    }
  }

  lemma SettleDeferredSame(s: State, code: int)
    requires TablesOk(s)
    ensures Same(s, SettleDeferred(s, code)) && TablesOk(SettleDeferred(s, code))
  {
    hide GivenUp, Occurs;
    var u := SettleDeferred(s, code);
    GivenUpDues(s.books, s.calls.deferred, code, 0);
    forall k: nat
      ensures Tokens(u, k) == Tokens(s, k) && Dues(u, k) == Dues(s, k) && Promises(u, k) == Promises(s, k)
    {
      GivenUpDues(s.books, s.calls.deferred, code, k);
      assert Holders(u.calls, k, true) == Holders(s.calls, k, true);
      assert Holders(u.calls, k, false) == Holders(s.calls, k, false);
      OccursNone(k);
    }
  }

  lemma CloseWrittenSame(e: Env, s: State)
    requires TablesOk(s)
    ensures Same(s, WriteDeferredClose(e, s)) && TablesOk(WriteDeferredClose(e, s))
  {
    hide CallTables, Tokens, Dues, Promises;
    if s.calls.closeCall.None? || s.wire.closed || s.wire.stopping || CloseBlocked(s.calls.pending) {
      TablesDecide(s, s);
    } else {
      var r := s.calls.closeCall.value;
      CloseCallShape(s.calls, s.entry.identity);
      CallTablesAdd(s.calls, s.entry.identity, r);
      var u := WriteDeferredClose(e, s);
      if !e.room(s.wire.attempts) {
        TablesDecide(s, u);
      } else {
        ClosePendSame(s, u);
      }
    }
  }

  lemma CloseCallShape(c: Calls, identity: nat)
    requires CallTables(c, identity) && c.closeCall.Some?
    ensures c.closeCall.value.verb == Close && !c.closeCall.value.scheduled && c.closeCall.value.destination == identity
    ensures c.nextOut + 1 !in c.pending
  {
  }

  lemma ClosePendSame(s: State, u: State)
    requires s.calls.closeCall.Some? && !s.calls.closeCall.value.scheduled && s.calls.nextOut + 1 !in s.calls.pending
    requires u.books == s.books
    requires u.calls == s.calls.(nextOut := s.calls.nextOut + 1,
                                 pending := s.calls.pending[s.calls.nextOut + 1 := s.calls.closeCall.value])
    ensures Same(s, u)
  {
    hide Holders, Occurs;
    forall k: nat, b: bool
      ensures |Holders(u.calls, k, b)| == |Holders(s.calls, k, b)|
    {
      HoldersAdd(s.calls, s.calls.nextOut + 1, s.calls.closeCall.value, k, b);
    }
  }

  /** Taking the close call moves its token from the caller to the session. */
  lemma CloseTakenGains(s: State, u: State, r: Request)
    requires TablesOk(s) && s.calls.closeCall.None? && !r.scheduled && Tokens(s, r.ticket) == 0
    requires u.books == s.books && u.calls == s.calls.(closeCall := Some(r))
    ensures Gains(s, u, r)
    ensures forall id :: id in s.calls.pending && !s.calls.pending[id].scheduled ==> s.calls.pending[id].ticket != r.ticket
  {
    assert Holders(s.calls, r.ticket, false) == {};
    forall id | id in s.calls.pending && !s.calls.pending[id].scheduled
      ensures s.calls.pending[id].ticket != r.ticket
    {
      assert id !in Holders(s.calls, r.ticket, false);
    }
    assert Holders(u.calls, r.ticket, false) == {};
    assert forall k: nat, id: nat :: k != r.ticket ==> (Holds(u.calls, id, k, false) <==> Holds(s.calls, id, k, false));
    assert forall k: nat :: k != r.ticket ==> Holders(u.calls, k, false) == Holders(s.calls, k, false);
    assert forall k: nat :: Holders(u.calls, k, true) == Holders(s.calls, k, true);
  }

  /** A ticket with no token anywhere is not the close call's. */
  predicate Unused(s: State, r: Request) { r.scheduled || Tokens(s, r.ticket) == 0 }

  lemma UnusedTicket(s: State, r: Request)
    requires Unused(s, r)
    ensures r.scheduled || CloseTicket(s.calls) != Some(r.ticket)
  {
  }

  lemma CloseTakenTables(c: Calls, identity: nat, r: Request)
    requires CallTables(c, identity) && c.closeCall.None? && r.verb == Close && !r.scheduled && r.destination == identity
    requires forall id :: id in c.pending && !c.pending[id].scheduled ==> c.pending[id].ticket != r.ticket
    ensures CallTables(c.(closeCall := Some(r)), identity)
  {
  }

  lemma BeginCloseGains(e: Env, s: State, r: Request)
    requires TablesOk(s) && !s.wire.closed && s.calls.closeCall.None? && !s.entry.peer
    requires r.verb == Close && !r.scheduled && r.destination == s.entry.identity && Tokens(s, r.ticket) == 0
    ensures Gains(s, BeginClose(e, s, r), r) && TablesOk(BeginClose(e, s, r))
  {
    hide Tokens, Dues, Promises, WriteDeferredClose, CallTables, GivenUp;
    var s1 := SettleDeferred(s, BUSY);
    SettleDeferredSame(s, BUSY);
    var s2 := s1.(calls := s1.calls.(closeCall := Some(r)),
                  clock := s.clock.(armed := false, closeTimer := Some(s.clock.now + CLOSE_BOUND)));
    CloseTakenGains(s1, s2, r);
    CloseTakenTables(s1.calls, s.entry.identity, r);
    CloseWrittenSame(e, s2);
    assert Gains(s1, WriteDeferredClose(e, s2), r);
    SameThenGains(s, s1, WriteDeferredClose(e, s2), r);
  }

  /** Issuing a request adds exactly one token, wherever the request ends up. */
  lemma IssueGains(e: Env, s: State, r0: Request)
    requires TablesOk(s) && !s.wire.closed && r0.destination == s.entry.identity && Unused(s, r0)
    requires (r0.scheduled ==> Seeds(s, r0)) && (r0.verb == Close ==> !r0.collect && !s.entry.peer)
    ensures Gains(s, Issue(e, s, r0), r0) && TablesOk(Issue(e, s, r0))
  {
    hide Tokens, Dues, Promises, Write, Launch, BeginClose, CallTables, Refusal, Gains;
    var r := Normalized(r0);
    UnusedTicket(s, r0);
    SameRequest(s, Issue(e, s, r0), r, r0);
    if Refusal(s, r0) != 0 {
      AnswerGains(s, r, Refused(Refusal(s, r0)));
    } else if r.verb == Close {
      CloseAdmitted(s, r0);
      BeginCloseGains(e, s, r);
    } else if r.verb == Execute || Seeds(s, r) {
      LaunchGains(e, s, r);
    } else {
      WriteGains(e, s, r);
      WriteTables(e, s, r);
    }
  }

  lemma SameRequest(s: State, u: State, r: Request, q: Request)
    requires r.ticket == q.ticket && r.scheduled == q.scheduled
    ensures Gains(s, u, r) == Gains(s, u, q)
  {
    hide Tokens, Dues, Promises;
  }

  /** A close is only admitted while no other close is in progress. */
  lemma CloseAdmitted(s: State, r: Request)
    requires r.verb == Close && !r.collect && Refusal(s, r) == 0
    ensures s.calls.closeCall.None?
  {
  }

  // ---- the queue ----

  lemma PoppedLoses(s: State)
    requires TablesOk(s) && s.calls.deferred != []
    ensures OneDue(Popped(s), s, s.calls.deferred[0].ticket) && TablesOk(Popped(s))
  {
    hide Occurs;
    var u := Popped(s);
    forall k: nat
      ensures Tokens(u, k) == Tokens(s, k) && Dues(s, k) == Dues(u, k) + One(k == s.calls.deferred[0].ticket)
    {
      OccursFirst(s.calls.deferred, k);
      assert Holders(u.calls, k, true) == Holders(s.calls, k, true);
      assert Holders(u.calls, k, false) == Holders(s.calls, k, false);
    }
    assert forall i :: 0 <= i < |u.calls.deferred| ==> u.calls.deferred[i] == s.calls.deferred[i + 1];
  }

  lemma Balanced(s: State, m: State, u: State, r: Request)
    requires Gains(m, s, r) && Gains(m, u, r)
    ensures Same(s, u)
  {
    hide Tokens, Dues, Promises;
  }

  lemma SameTwice(s: State, m: State, u: State)
    requires Same(s, m) && Same(m, u)
    ensures Same(s, u)
  {
    hide Tokens, Dues, Promises;
  }

  predicate SameEnds(s: State, u: State) { u.wire.closed == s.wire.closed && u.entry.identity == s.entry.identity }

  lemma WriteOpen(e: Env, s: State, r: Request)
    ensures SameEnds(s, Write(e, s, r))
  {
  }

  lemma CloseOpen(e: Env, s: State)
    ensures SameEnds(s, WriteDeferredClose(e, s))
  {
  }

  lemma IssueOpen(e: Env, s: State, r0: Request)
    ensures SameEnds(s, Issue(e, s, r0))
  {
    hide Write, WriteDeferredClose, GivenUp, Refusal, Seeds;
    var r := Normalized(r0);
    var s1 := SettleDeferred(s, BUSY);
    CloseOpen(e, s1.(calls := s1.calls.(closeCall := Some(r)),
                     clock := s.clock.(armed := false, closeTimer := Some(s.clock.now + CLOSE_BOUND))));
    WriteOpen(e, s, r);
    var s2 := ReserveRun(e, s);
    WriteOpen(e, s2.(runs := s2.runs.(fromTrace := r.verb == Deliver && r.traceCopy,
                                      fromCompletion := r.verb == Deliver && r.completion)), r.(run := s2.runs.current));
  }

  lemma {:induction false} StartDeferredSame(e: Env, s: State)
    requires TablesOk(s) && !s.wire.closed
    ensures Same(s, StartDeferred(e, s)) && TablesOk(StartDeferred(e, s))
    ensures StartDeferred(e, s).wire.closed == s.wire.closed
    decreases |s.calls.deferred|
  {
    hide Tokens, Dues, Promises, Issue, CallTables, Same;
    if s.runs.current.Some? || s.calls.deferred == [] {
      TablesDecide(s, s);
    } else {
      var r := s.calls.deferred[0];
      HeadShape(s);
      PoppedLoses(s);
      var m := Issue(e, Popped(s), r);
      IssueGains(e, Popped(s), r);
      IssueOpen(e, Popped(s), r);
      Balanced(s, Popped(s), m, r);
      StartDeferredSame(e, m);
      SameTwice(s, m, StartDeferred(e, m));
    }
  }

  lemma HeadShape(s: State)
    requires TablesOk(s) && s.calls.deferred != []
    ensures s.calls.deferred[0].scheduled && s.calls.deferred[0].verb == Deliver
    ensures s.calls.deferred[0].destination == s.entry.identity
  {
  }

  // ---- responses ----

  function Without(s: State, id: nat): State { s.(calls := s.calls.(pending := s.calls.pending - {id})) }

  /** Removing an answered call takes its token out; the close call keeps its own. */
  lemma WithoutLoses(s: State, id: nat)
    requires TablesOk(s) && id in s.calls.pending
    ensures TablesOk(Without(s, id))
    ensures if s.calls.pending[id].verb == Close then Same(s, Without(s, id)) else Gains(Without(s, id), s, s.calls.pending[id])
  {
    hide Holders, Occurs;
    var u, r := Without(s, id), s.calls.pending[id];
    forall k: nat, b: bool
      ensures |Holders(u.calls, k, b)| ==
              |Holders(s.calls, k, b)| - One(r.ticket == k && r.scheduled == b && (b || CloseTicket(s.calls) != Some(k)))
    {
      HoldersLess(s.calls, id, k, b);
    }
    WithoutTables(s.calls, s.entry.identity, id);
  }

  lemma WithoutTables(c: Calls, identity: nat, id: nat)
    requires CallTables(c, identity)
    ensures CallTables(c.(pending := c.pending - {id}), identity)
  {
    hide CallOk;
  }

  lemma RetainGains(e: Env, s: State, r: Request)
    requires TablesOk(s) && !s.wire.closed && r.destination == s.entry.identity && !r.scheduled && r.verb == Deliver
    requires Tokens(s, r.ticket) == 0 && !s.entry.peer
    ensures Gains(s, Retain(e, s, r), r) && TablesOk(Retain(e, s, r))
  {
    hide CallTables, Issue, HasRunCapacity;
    if s.runs.current.None? {
      hide Tokens, Dues, Promises;
      IssueGains(e, s, r);
    } else if !HasRunCapacity(s) {
      hide Tokens, Dues, Promises;
      AnswerGains(s, r, Refused(BUSY));
    } else {
      QueueGains(s, r);
      QueueTables(s.calls, s.entry.identity, r);
    }
  }

  lemma QueueTables(c: Calls, identity: nat, r: Request)
    requires CallTables(c, identity) && r.destination == identity && r.verb == Deliver
    ensures CallTables(c.(deferred := c.deferred + [r.(scheduled := true)]), identity)
  {
  }

  /** Queueing answers the caller and makes one promise, matched by one place in the queue. */
  lemma QueueGains(s: State, r: Request)
    requires !r.scheduled
    ensures Gains(s, s.(calls := s.calls.(deferred := s.calls.deferred + [r.(scheduled := true)]),
                        books := Noted(s.books, r, Queued).(queued := s.books.queued + [r.ticket])), r)
  {
    var u := s.(calls := s.calls.(deferred := s.calls.deferred + [r.(scheduled := true)]),
                books := Noted(s.books, r, Queued).(queued := s.books.queued + [r.ticket]));
    assert TicketsOf(u.calls.deferred) == TicketsOf(s.calls.deferred) + [r.ticket];
    assert forall k: nat, b: bool :: Holders(u.calls, k, b) == Holders(s.calls, k, b);
    assert forall k: nat :: k != r.ticket ==> At(u.books.replies, k) == At(s.books.replies, k);
  }

  lemma FailGains(e: Env, s: State, r: Request, code: int)
    requires TablesOk(s) && !s.wire.closed
    ensures Gains(s, FailResponse(e, s, r, code), r) && TablesOk(FailResponse(e, s, r, code))
  {
    hide Tokens, Dues, Promises, CallTables, RefuseRun, Noted, StartDeferred;
    var s1 := if r.verb == Execute || code != INTERNAL then RefuseRun(s, r.run) else s;
    RefuseSame(s, r.run);
    TablesDecide(s, s1);
    var s2 := AnswerRouted(s1, r, Refused(code));
    AnswerGains(s1, r, Refused(code));
    StartDeferredSame(e, s2);
    assert Gains(s1, StartDeferred(e, s2), r);
    SameThenGains(s, s1, StartDeferred(e, s2), r);
  }

  lemma CollectGains(e: Env, s: State, r: Request, id: RunId)
    requires TablesOk(s) && !s.wire.closed && r.destination == s.entry.identity && Unused(s, r) && !r.scheduled
    ensures Gains(s, Issue(e, s, Collector(r, id)), r) && TablesOk(Issue(e, s, Collector(r, id)))
  {
    hide Tokens, Dues, Promises, CallTables, Issue;
    IssueGains(e, s, Collector(r, id));
    SameRequest(s, Issue(e, s, Collector(r, id)), Collector(r, id), r);
  }

  /** Settling a response puts the removed token back: as an answer, a new call, or a place in the queue. */
  lemma SettleGains(e: Env, s: State, r: Request, response: Response)
    requires TablesOk(s) && !s.wire.closed && r.destination == s.entry.identity && r.verb != Close && Unused(s, r)
    requires r.scheduled ==> r.run.Some? && r.verb == Deliver
    ensures Gains(s, SettleResponse(e, s, r, response), r) && TablesOk(SettleResponse(e, s, r, response))
  {
    hide Tokens, Dues, Promises, CallTables, Retain, FailResponse, Issue, Noted, RecordAcknowledgment, Gains;
    if Retained(s, r, response) {
      RetainGains(e, s, r);
    } else {
      match response
      case Failed(code) => FailGains(e, s, r, code);
      case Undecodable =>
        AnswerAfter(s, CloseWire(s), r, Refused(NOT_CONNECTED));
      case Succeeded(ref) =>
        if r.verb == Execute && (ref.None? || ref != r.run) {
          AnswerAfter(s, CloseWire(s), r, Refused(NOT_CONNECTED));
        } else if r.verb == Execute && r.collect {
          CollectGains(e, s, r, ref.value);
        } else if r.verb == Ack {
          AnswerAfter(s, s.(runs := RecordAcknowledgment(s.runs, r.ref)), r, Done);
        } else {
          AnswerAfter(s, s, r, Done);
        }
    }
  }

  lemma AnswerAfter(s: State, m: State, r: Request, a: Answer)
    requires TablesOk(s) && m.books == s.books && m.calls == s.calls && m.entry == s.entry
    requires m.wire == s.wire || m.wire == s.wire.(cut := true)
    ensures Gains(s, AnswerRouted(m, r, a), r) && TablesOk(AnswerRouted(m, r, a))
  {
    hide Tokens, Dues, Promises, CallTables, Noted;
    TablesDecide(s, m);
    AnswerGains(m, r, a);
    SameThenGains(s, m, AnswerRouted(m, r, a), r);
  }

  /** Whatever a worker or peer answers, the token of the answered call is neither lost nor doubled. */
  lemma ReceiveSame(e: Env, s: State, id: nat, response: Response)
    requires TablesOk(s) && !s.wire.closed && Spent(s)
    ensures Same(s, ReceiveResponse(e, s, id, response)) && TablesOk(ReceiveResponse(e, s, id, response))
  {
    hide Tokens, Dues, Promises, CallTables, SettleResponse, WriteDeferredClose, Gains, Same;
    if id !in s.calls.pending {
      TablesDecide(s, HardStop(s));
    } else {
      var r, m := s.calls.pending[id], Without(s, id);
      WithoutLoses(s, id);
      PendingShape(s, id);
      if r.verb == Close {
        CloseAnswered(e, m, r, response);
        SameTwice(s, m, SettleResponse(e, m, r, response));
      } else {
        var u := SettleResponse(e, m, r, response);
        SpentUnused(s, m, r);
        SettleGains(e, m, r, response);
        Balanced(s, m, u, r);
        if r.verb == Execute && r.collect {
          CloseWrittenSame(e, u);
          SameTwice(s, u, WriteDeferredClose(e, u));
        }
      }
    }
  }

  /** No ticket has more than one token. */
  ghost predicate Spent(s: State) { forall k: nat :: Tokens(s, k) <= 1 }

  lemma SpentUnused(s: State, m: State, r: Request)
    requires Spent(s) && Gains(m, s, r)
    ensures Unused(m, r)
  {
    hide Tokens, Dues, Promises;
  }

  lemma PendingShape(s: State, id: nat)
    requires TablesOk(s) && id in s.calls.pending
    ensures s.calls.pending[id].destination == s.entry.identity
    ensures s.calls.pending[id].scheduled ==> s.calls.pending[id].verb == Deliver && s.calls.pending[id].run.Some?
  {
  }

  lemma CloseAnswered(e: Env, s: State, r: Request, response: Response)
    requires TablesOk(s) && !s.wire.closed && r.verb == Close && r.destination == s.entry.identity
    ensures Same(s, SettleResponse(e, s, r, response)) && TablesOk(SettleResponse(e, s, r, response))
  {
    hide Tokens, Dues, Promises, CallTables, Same;
    TablesDecide(s, SettleResponse(e, s, r, response));
  }

  lemma TurnReadySame(e: Env, s: State, call: nat, id: RunId, done: bool)
    requires TablesOk(s) && !s.wire.closed
    ensures Same(s, TurnReady(e, s, call, id, done)) && TablesOk(TurnReady(e, s, call, id, done))
  {
    hide Tokens, Dues, Promises, CallTables, StartDeferred, Same;
    if !ReadyMatches(s, id) {
      TablesDecide(s, HardStop(s));
    } else {
      var m := TurnAcked(e, s, call, done);
      var u := StartDeferred(e, m);
      TablesDecide(s, m);
      StartDeferredSame(e, m);
      SameTwice(s, m, u);
      NoticeSame(u, TurnReady(e, s, call, id, done));
      SameTwice(s, u, TurnReady(e, s, call, id, done));
    }
  }

  lemma NoticeSame(s: State, u: State)
    requires u == s.(books := s.books.(notices := u.books.notices))
    ensures Same(s, u)
  {
  }

  // ---- the end of the connection ----

  lemma SettledCount(c: Calls, m: map<nat, seq<Answer>>, code: int, scheduled: bool, t: nat)
    ensures |At(Settled(c, m, code, scheduled), t)| == |At(m, t)| + |Holders(c, t, scheduled)|
  {
    var more := set id | id in c.pending && Holds(c, id, c.pending[id].ticket, scheduled) :: c.pending[id].ticket;
    if t !in m.Keys + more {
      assert forall id: nat :: Holds(c, id, t, scheduled) ==> c.pending[id].ticket in more;
      assert Holders(c, t, scheduled) == {};
    }
  }

  /** Answering everything still pending turns each owed answer into a given one. */
  lemma SettlePendingSame(s: State, code: int)
    requires TablesOk(s)
    ensures Same(s, SettlePending(s, code))
    ensures SettlePending(s, code).calls == s.calls.(pending := map[], deferred := [])
  {
    hide GivenUp, Occurs;
    var m, u := SettleDeferred(s, code), SettlePending(s, code);
    SettleDeferredSame(s, code);
    forall k: nat
      ensures Tokens(u, k) == Tokens(m, k) && Dues(u, k) == Dues(m, k) && Promises(u, k) == Promises(m, k)
    {
      hide Settled;
      SettledCount(m.calls, m.books.replies, code, false, k);
      SettledCount(m.calls, m.books.notes, code, true, k);
      assert Holders(u.calls, k, true) == {} && Holders(u.calls, k, false) == {};
    }
    SameTwice(s, m, u);
  }

  lemma ClosedSame(s: State)
    requires TablesOk(s)
    ensures Same(s, ConnectionClosed(s)) && TablesOk(ConnectionClosed(s))
  {
    hide Tokens, Dues, Promises, Same, SettlePending, CallTables;
    if s.wire.closed {
      TablesDecide(s, s);
    } else {
      var m := s.(wire := s.wire.(stopping := true, closed := true, cut := true), clock := s.clock.(armed := false),
                  entry := s.entry.(attached := false, running := false, claimed := s.entry.claimed || !s.entry.peer));
      TablesDecide(s, m);
      SettleEnded(s, m, NOT_CONNECTED);
    }
  }

  /** Settling does not need the connection: m is s with its wire or entry changed. */
  lemma SettleEnded(s: State, m: State, code: int)
    requires TablesOk(s) && m.calls == s.calls && m.books == s.books
    ensures Same(s, SettlePending(m, code))
    ensures SettlePending(m, code).calls == s.calls.(pending := map[], deferred := [])
    ensures CallTables(SettlePending(m, code).calls, s.entry.identity)
    ensures SettlePending(m, code).wire == m.wire && SettlePending(m, code).entry == m.entry
  {
    hide Tokens, Dues, Promises, GivenUp, Settled;
    SettlePendingSame(s, code);
    TablesDecide(SettlePending(s, code), SettlePending(m, code));
    SameTwice(s, SettlePending(s, code), SettlePending(m, code));
  }

  lemma IdentifySame(s: State, identity: nat)
    requires TablesOk(s)
    ensures Same(s, Identify(s, identity)) && TablesOk(Identify(s, identity))
  {
    hide Tokens, Dues, Promises, Same, SettlePending;
    if !s.entry.peer || s.wire.stopping {
      TablesDecide(s, s);
    } else {
      var m := SettlePending(s, NOT_CONNECTED);
      SettleEnded(s, s, NOT_CONNECTED);
      TablesDecide(m, Identify(s, identity));
      SameTwice(s, m, Identify(s, identity));
    }
  }

  lemma PolicyCloseGains(e: Env, s: State, ticket: nat)
    requires TablesOk(s) && Tokens(s, ticket) == 0
    ensures TablesOk(PolicyClose(e, s, ticket))
    ensures PolicyClose(e, s, ticket) == s || OneMore(s, PolicyClose(e, s, ticket), ticket)
  {
    hide Tokens, Dues, Promises, BeginClose, CallTables;
    if !(s.wire.stopping || s.calls.closeCall.Some? || s.entry.launching || s.entry.peer) {
      var r := Request(ticket, s.entry.identity, Close, None, None, false, false, false, false);
      BeginCloseGains(e, s, r);
      assert Gains(s, BeginClose(e, s, r), r);
    }
  }
}
