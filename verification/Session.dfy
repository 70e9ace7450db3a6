/**
  The session object of the daemon: its fields, the methods that update them in
  place, and the proof that each method takes exactly the step of the model.
 */
module Session {
  import opened Common
  import opened RunIds
  import opened SessionModel
  import M = SessionModel
  import opened SessionProofs

  /** The calls of c whose pending entries are no longer in `left`: those a walk over the table has dealt with. */
  function Among(c: Calls, left: map<nat, Request>): Calls {
    c.(pending := map id | id in c.pending && id !in left :: c.pending[id])
  }

  lemma HoldersStep(c: Calls, left: map<nat, Request>, scheduled: bool, id: nat, t: nat)
    requires id in left && id in c.pending
    ensures var more := Holds(c, id, t, scheduled);
      && Holders(Among(c, left - {id}), t, scheduled) == Holders(Among(c, left), t, scheduled) + (if more then {id} else {})
      && |Holders(Among(c, left - {id}), t, scheduled)| == |Holders(Among(c, left), t, scheduled)| + (if more then 1 else 0)
  {
    hide Holds, Among, Holders;
    var a, b := Among(c, left - {id}), Among(c, left);
    HoldersMean(a, t, scheduled);
    HoldersMean(b, t, scheduled);
    forall k: nat
      ensures Holds(a, k, t, scheduled) <==> Holds(b, k, t, scheduled) || (k == id && Holds(c, id, t, scheduled))
    {
      HoldsAmong(c, left, k, t, scheduled);
      HoldsAmong(c, left - {id}, k, t, scheduled);
    }
    HoldsAmong(c, left, id, t, scheduled);
    assert Holders(a, t, scheduled) == Holders(b, t, scheduled) + (if Holds(c, id, t, scheduled) then {id} else {});
  }

  lemma HoldsAmong(c: Calls, left: map<nat, Request>, k: nat, t: nat, scheduled: bool)
    ensures Holds(Among(c, left), k, t, scheduled) <==> k !in left && Holds(c, k, t, scheduled)
  {
  }

  lemma HoldersMean(c: Calls, t: nat, scheduled: bool)
    ensures forall k: nat :: k in Holders(c, t, scheduled) <==> Holds(c, k, t, scheduled)
  {
  }

  lemma RepeatMore(a: Answer, n: nat)
    ensures Repeat(a, n + 1) == Repeat(a, n) + [a]
  {
  }

  /** Answering one more pending call, whatever the order of the map, moves the settled books one call on. */
  lemma SettledStep(c: Calls, left: map<nat, Request>, m: map<nat, seq<Answer>>, code: int, scheduled: bool, id: nat)
    requires id in left && id in c.pending
    ensures var before := Settled(Among(c, left), m, code, scheduled);
      var after := Settled(Among(c, left - {id}), m, code, scheduled);
      after == if Holds(c, id, c.pending[id].ticket, scheduled) then Added(before, c.pending[id].ticket, Refused(code)) else before
  {
    hide Settled, Holders, Among, Repeat, Holds;
    var t0 := c.pending[id].ticket;
    var before, after := Settled(Among(c, left), m, code, scheduled), Settled(Among(c, left - {id}), m, code, scheduled);
    var result := if Holds(c, id, t0, scheduled) then Added(before, t0, Refused(code)) else before;
    forall t: nat
      ensures (t in after <==> t in result) && At(after, t) == At(result, t)
    {
      SettledAt(Among(c, left), m, code, scheduled, t);
      SettledAt(Among(c, left - {id}), m, code, scheduled, t);
      HoldersStep(c, left, scheduled, id, t);
      OwnTicket(c, id, t, scheduled);
      RepeatMore(Refused(code), |Holders(Among(c, left), t, scheduled)|);
    }
    assert after.Keys == result.Keys;
  }

  lemma OwnTicket(c: Calls, id: nat, t: nat, scheduled: bool)
    requires id in c.pending
    ensures Holds(c, id, t, scheduled) <==> t == c.pending[id].ticket && Holds(c, id, c.pending[id].ticket, scheduled)
  {
  }

  lemma HoldsMeans(c: Calls, id: nat)
    requires id in c.pending
    ensures Holds(c, id, c.pending[id].ticket, true) <==> c.pending[id].scheduled
    ensures Holds(c, id, c.pending[id].ticket, false) <==> !c.pending[id].scheduled && CloseTicket(c) != Some(c.pending[id].ticket)
  {
  }

  lemma SmallerMap(m: map<nat, Request>, id: nat)
    requires id in m
    ensures |m - {id}| < |m|
  {
    assert (m - {id}).Keys == m.Keys - {id};
    assert |m.Keys| == |m| && |(m - {id}).Keys| == |m - {id}|;
  }

  lemma AllAmong(c: Calls)
    ensures Among(c, map[]) == c
  {
  }

  lemma NothingSettled(c: Calls, m: map<nat, seq<Answer>>, code: int, scheduled: bool)
    ensures Settled(Among(c, c.pending), m, code, scheduled) == m
  {
    var d := Among(c, c.pending);
    assert forall t: nat :: Holders(d, t, scheduled) == {};
    assert forall t :: t in m ==> At(m, t) + Repeat(Refused(code), 0) == m[t];
  }

  /** One connection's loop state. The tables are fields of their own; what the source keeps in groups of scalars is one record each. */
  class Session {
    const env: Env

    var entry: Entry
    var runs: Runs
    var clock: Clock
    var nextOut: nat
    var pending: map<nat, Request>
    var deferred: seq<Request>
    var closeCall: Option<Request>
    var wire: Wire
    var books: Books

    ghost function Snapshot(): State
      reads this
    {
      State(entry, runs, clock, Calls(nextOut, pending, deferred, closeCall), wire, books)
    }

    constructor (env: Env, identity: nat, peer: bool, launching: bool)
      ensures this.env == env && Snapshot() == Lane(identity).(entry := Entry(identity, peer, launching, true, false, false))
    {
      this.env := env;
      entry := Entry(identity, peer, launching, true, false, false);
      runs := Runs(None, None, 0, 0, false, false);
      clock := Clock(0, 0, 0, false, None);
      nextOut, pending, deferred, closeCall := 0, map[], [], None;
      wire := Wire(0, false, [], false, false);
      books := Books(map[], map[], [], [], []);
    }

    method AnswerRouted(r: Request, a: Answer)
      modifies this`books
      ensures Snapshot() == M.AnswerRouted(old(Snapshot()), r, a)
    {
      if !r.scheduled {
        books := books.(replies := Added(books.replies, r.ticket, a));
        return;
      }
      books := books.(notes := Added(books.notes, r.ticket, a));
    }

    method Send(f: Down) returns (ok: bool)
      modifies this`wire
      ensures ok == env.room(old(wire.attempts)) && wire == M.Send(env, old(wire), f)
    {
      ok := env.room(wire.attempts);
      wire := wire.(attempts := wire.attempts + 1);
      if !ok {
        wire := wire.(cut := true);
      } else if !wire.cut {
        wire := wire.(sent := wire.sent + [f]);
      }
    }

    method SetDeadline(at: nat)
      modifies this`clock
      ensures clock == M.SetDeadline(old(clock), at)
      ensures clock.armed <==> at != 0
    {
      clock := clock.(armed := false, deadline := at);
      if at == 0 {
        return;
      }
      clock := clock.(armed := true);
    }

    method ReserveRun() returns (id: RunId)
      modifies this`runs, this`clock
      ensures Snapshot() == M.ReserveRun(env, old(Snapshot())) && runs.current == Some(id)
    {
      runs := runs.(fromTrace := false, fromCompletion := false);
      clock := clock.(previous := clock.deadline);
      SetDeadline(0);
      if runs.generation.None? {
        runs := runs.(generation := Some(env.generation));
      }
      runs := runs.(sequence := runs.sequence + 1);
      id := RunId(runs.generation.value, runs.sequence);
      runs := runs.(current := Some(id));
    }

    method RefuseRun(id: Option<RunId>)
      modifies this`runs, this`clock, this`entry
      ensures Snapshot() == M.RefuseRun(old(Snapshot()), id)
    {
      if id.None? || runs.current != id {
        return;
      }
      runs := runs.(current := None, fromTrace := false, fromCompletion := false, sequence := Less(runs.sequence));
      entry := FinishRun(entry);
      SetDeadline(clock.previous);
    }

    method HardStop()
      modifies this`wire
      ensures Snapshot() == M.HardStop(old(Snapshot()))
      ensures forall f :: M.Send(env, wire, f).sent == wire.sent
    {
      wire := wire.(stopping := true);
      wire := wire.(cut := true);
    }

    method OrderlyStop()
      modifies this`wire, this`clock
      ensures Snapshot() == M.OrderlyStop(old(Snapshot()))
    {
      HardStop();
      if clock.closeTimer.None? {
        clock := clock.(closeTimer := Some(clock.now + CLOSE_BOUND));
      }
    }

    /** Give up the promised deliveries in order; each outcome is logged. */
    method SettleDeferred(code: int)
      modifies this`books, this`deferred
      ensures Snapshot() == M.SettleDeferred(old(Snapshot()), code)
    {
      var i := 0;
      while i < |deferred|
        invariant 0 <= i <= |deferred| && deferred == old(deferred)
        invariant GivenUp(books, deferred[i..], code) == GivenUp(old(books), old(deferred), code)
      {
        AnswerRouted(deferred[i], Refused(code));
        books := books.(popped := books.popped + [deferred[i].ticket]);
        assert deferred[i..][0] == deferred[i] && deferred[i..][1..] == deferred[i + 1..];
        i := i + 1;
      }
      deferred := [];
    }

    /** Does some pending call hold back the close? */
    method Blocked() returns (blocked: bool)
      ensures blocked == CloseBlocked(pending)
    {
      var left := pending.Keys;
      while left != {}
        invariant left <= pending.Keys && forall id :: id in pending && id !in left ==> !BlocksClose(pending[id])
        decreases |left|
      {
        var id :| id in left;
        if BlocksClose(pending[id]) {
          return true;
        }
        left := left - {id};
      }
      return false;
    }

    /** The close frame goes out once no blocking execute is pending. */
    method WriteDeferredClose()
      modifies this`wire, this`entry, this`nextOut, this`pending
      ensures Snapshot() == M.WriteDeferredClose(env, old(Snapshot()))
    {
      if closeCall.None? || wire.closed || wire.stopping {
        return;
      }
      var blocked := Blocked();
      if blocked {
        return;
      }
      nextOut := nextOut + 1;
      var ok := Send(Call(nextOut, closeCall.value));
      if !ok {
        HardStop();
        return;
      }
      entry := entry.(claimed := true);
      pending := pending[nextOut := closeCall.value];
    }

    method BeginClose(r: Request)
      modifies this
      ensures Snapshot() == M.BeginClose(env, old(Snapshot()), r)
    {
      clock := clock.(armed := false);
      SettleDeferred(BUSY);
      closeCall := Some(r);
      clock := clock.(closeTimer := Some(clock.now + CLOSE_BOUND));
      WriteDeferredClose();
    }

    /** Number, encode and send one call; a call that cannot be sent is undone and answered. */
    method Write(r: Request)
      modifies this
      ensures Snapshot() == M.Write(env, old(Snapshot()), r)
    {
      nextOut := nextOut + 1;
      var ok := !CarriesBody(r.verb) || env.fits(nextOut);
      if ok {
        ok := Send(Call(nextOut, r));
      }
      if !ok {
        if r.run.Some? {
          RefuseRun(r.run);
        }
        AnswerRouted(r, Refused(NOT_CONNECTED));
        return;
      }
      if r.run.Some? {
        entry := entry.(running := true);
      }
      pending := pending[nextOut := r];
    }

    /** As long as no more was promised than the worker retains, wrap-around plays no part. */
    method HasRunCapacity() returns (ok: bool)
      ensures ok == M.HasRunCapacity(Snapshot())
      ensures Bounded(ViewOf(Snapshot())) ==> (ok <==> runs.sequence - runs.acknowledged + |deferred| < MAX_OPERATIONS)
    {
      return U64(U64(runs.sequence - runs.acknowledged) + |deferred|) < MAX_OPERATIONS;
    }

    /** A routed request: refused, turned into a close, or written, reserving a run where it starts one. */
    method Issue(r0: Request)
      modifies this
      ensures Snapshot() == M.Issue(env, old(Snapshot()), r0)
    {
      hide M.Write, M.BeginClose, M.HasRunCapacity, M.Launch;
      if closeCall.Some? && !r0.collect {
        AnswerRouted(Normalized(r0), Refused(BUSY));
        return;
      }
      if |pending| + |deferred| >= MAX_PENDING_CALLS {
        AnswerRouted(Normalized(r0), Refused(BUSY));
        return;
      }
      var r := r0;
      if r0.verb == Verb.Start || r0.verb == RunAndWait {
        r := r0.(verb := Execute, collect := r0.verb == RunAndWait);
      }
      var code := Admit(entry, r.verb);
      if code != 0 {
        AnswerRouted(r, Refused(code));
        return;
      }
      if r.verb == Close {
        BeginClose(r);
        return;
      }
      var seeds := r.verb == Deliver && !entry.peer && runs.current.None?;
      if r.verb == Execute || seeds {
        var capacity := HasRunCapacity();
        if !capacity || (seeds && closeCall.Some?) {
          AnswerRouted(r, Refused(BUSY));
          return;
        }
        Launch(r);
        return;
      }
      Write(r);
    }

    /** Reserve the next run for r; a delivery hands its provenance to the run it seeds. */
    method Launch(r: Request)
      modifies this
      ensures Snapshot() == M.Launch(env, old(Snapshot()), r)
    {
      hide M.Write;
      var id := ReserveRun();
      runs := runs.(fromTrace := r.verb == Deliver && r.traceCopy, fromCompletion := r.verb == Deliver && r.completion);
      Write(r.(run := Some(id)));
    }

    /** Drain the queue from its head, one run at a time. */
    method StartDeferred()
      modifies this
      ensures Snapshot() == M.StartDeferred(env, old(Snapshot()))
    {
      hide M.Issue;
      while runs.current.None? && |deferred| > 0
        invariant M.StartDeferred(env, Snapshot()) == M.StartDeferred(env, old(Snapshot()))
        decreases |deferred|
      {
        var r := deferred[0];
        deferred := deferred[1..];
        books := books.(popped := books.popped + [r.ticket]);
        Issue(r);
      }
    }

    method RecordAcknowledgment(ref: Option<RunText>)
      modifies this`runs
      ensures runs == M.RecordAcknowledgment(old(runs), ref)
    {
      if ref.Some? && !ref.value.Malformed? && runs.generation == Some(ref.value.id.generation)
         && ref.value.id.sequence <= runs.sequence && ref.value.id.sequence > runs.acknowledged {
        runs := runs.(acknowledged := ref.value.id.sequence);
      }
    }

    method Retain(r: Request)
      modifies this
      ensures Snapshot() == M.Retain(env, old(Snapshot()), r)
    {
      hide M.Issue, M.HasRunCapacity;
      if runs.current.None? {
        Issue(r);
        return;
      }
      var capacity := HasRunCapacity();
      if !capacity {
        AnswerRouted(r, Refused(BUSY));
      } else {
        AnswerRouted(r, Queued);
        books := books.(queued := books.queued + [r.ticket]);
        deferred := deferred + [r.(scheduled := true)];
      }
    }

    method SettleResponse(r: Request, response: Response)
      modifies this
      ensures Snapshot() == M.SettleResponse(env, old(Snapshot()), r, response)
    {
      hide M.Issue, M.Retain, M.StartDeferred, M.RefuseRun;
      if r.destination != entry.identity || !entry.attached {
        AnswerRouted(r, Refused(NOT_CONNECTED));
        return;
      }
      if r.verb == Close {
        if response.Succeeded? {
          OrderlyStop();
        } else {
          wire := wire.(cut := true);
        }
        return;
      }
      if response.Failed? {
        if response.code == NOT_RUNNING && r.verb == Deliver && r.run.None? && !entry.peer && closeCall.None? {
          Retain(r);
          return;
        }
        if r.verb == Execute || response.code != INTERNAL {
          RefuseRun(r.run);
        }
        AnswerRouted(r, Refused(response.code));
        StartDeferred();
        return;
      }
      if response.Undecodable? || (r.verb == Execute && (response.ref.None? || response.ref != r.run)) {
        wire := wire.(cut := true);
        AnswerRouted(r, Refused(NOT_CONNECTED));
        return;
      }
      if r.verb == Execute && r.collect {
        Issue(Collector(r, response.ref.value));
        return;
      }
      if r.verb == Ack {
        RecordAcknowledgment(r.ref);
      }
      AnswerRouted(r, Done);
    }

    method ReceiveResponse(id: nat, response: Response)
      modifies this
      ensures Snapshot() == M.ReceiveResponse(env, old(Snapshot()), id, response)
    {
      hide M.SettleResponse, M.WriteDeferredClose;
      if id !in pending {
        HardStop();
        return;
      }
      var r := pending[id];
      pending := pending - {id};
      SettleResponse(r, response);
      if r.verb == Execute && r.collect {
        WriteDeferredClose();
      }
    }

    method TurnReady(call: nat, id: RunId, done: bool)
      modifies this
      ensures Snapshot() == M.TurnReady(env, old(Snapshot()), call, id, done)
    {
      hide M.StartDeferred;
      if entry.peer || runs.current != Some(id) {
        HardStop();
        return;
      }
      var fromTrace, fromCompletion := runs.fromTrace, runs.fromCompletion;
      runs := runs.(current := None, fromTrace := false, fromCompletion := false);
      entry := FinishRun(entry);
      if done && env.autoClose > 0 && closeCall.None? {
        SetDeadline(clock.now + env.autoClose);
      }
      var _ := Send(ReadyAck(call));
      StartDeferred();
      if env.notifies && !fromCompletion && closeCall.None? {
        books := books.(notices := books.notices + [Charge(id, !fromTrace)]);
      }
    }

    /** Answer everything pending, in whatever order the map yields it, except the close call. */
    method SettleCalls(code: int)
      modifies this`books, this`pending
      ensures pending == map[]
      ensures var c := old(Snapshot()).calls;
        books == old(books).(replies := Settled(c, old(books.replies), code, false), notes := Settled(c, old(books.notes), code, true))
    {
      ghost var c, b := Snapshot().calls, books;
      NothingSettled(c, b.replies, code, false);
      NothingSettled(c, b.notes, code, true);
      hide M.Settled, Holds, Among, Added;
      while pending != map[]
        invariant forall id :: id in pending ==> id in c.pending && pending[id] == c.pending[id]
        invariant books == b.(replies := Settled(Among(c, pending), b.replies, code, false),
                              notes := Settled(Among(c, pending), b.notes, code, true))
        decreases |pending|
      {
        var id :| id in pending;
        var r := pending[id];
        SettledStep(c, pending, b.replies, code, false, id);
        SettledStep(c, pending, b.notes, code, true, id);
        HoldsMeans(c, id);
        SmallerMap(pending, id);
        pending := pending - {id};
        if closeCall.Some? && !r.scheduled && r.ticket == closeCall.value.ticket {
          continue;
        }
        AnswerRouted(r, Refused(code));
      }
      AllAmong(c);
    }

    method SettlePending(code: int)
      modifies this`books, this`deferred, this`pending
      ensures Snapshot() == M.SettlePending(old(Snapshot()), code)
    {
      hide M.Settled, GivenUp;
      SettleDeferred(code);
      SettleCalls(code);
    }

    method ConnectionClosed()
      modifies this
      ensures Snapshot() == M.ConnectionClosed(old(Snapshot()))
    {
      hide M.SettlePending;
      if wire.closed {
        return;
      }
      wire := wire.(stopping := true, closed := true);
      clock := clock.(armed := false);
      wire := wire.(cut := true);
      entry := entry.(attached := false, running := false);
      if !entry.peer {
        entry := entry.(claimed := true);
      }
      SettlePending(NOT_CONNECTED);
    }

    method PolicyClose(ticket: nat)
      modifies this
      ensures Snapshot() == M.PolicyClose(env, old(Snapshot()), ticket)
    {
      hide M.BeginClose;
      if wire.stopping || closeCall.Some? || entry.launching || entry.peer {
        return;
      }
      BeginClose(Request(ticket, entry.identity, Close, None, None, false, false, false, false));
    }

    method Identify(identity: nat)
      modifies this
      ensures Snapshot() == M.Identify(old(Snapshot()), identity)
    {
      hide M.SettlePending;
      if !entry.peer || wire.stopping {
        return;
      }
      SettlePending(NOT_CONNECTED);
      entry := entry.(identity := identity);
    }

    method FinishLane(forget: bool, deleted: bool)
      modifies this`books
      ensures Snapshot() == M.FinishLane(old(Snapshot()), forget, deleted)
    {
      if closeCall.Some? {
        AnswerRouted(closeCall.value, if forget && !deleted then Refused(INTERNAL) else Done);
      }
    }

    /** One event of the loop. */
    method Handle(event: Event)
      modifies this
      ensures Snapshot() == M.Handle(env, old(Snapshot()), event)
    {
      hide M.Issue, M.ReceiveResponse, M.TurnReady, M.ConnectionClosed, M.PolicyClose, M.Identify;
      match event
      case Routed(r) =>
        if wire.stopping || r.destination != entry.identity || entry.launching {
          AnswerRouted(r, Refused(NOT_CONNECTED));
        } else {
          Issue(r);
        }
      case Answered(id, response) => if !wire.stopping { ReceiveResponse(id, response); }
      case Ready(call, id, done) => if !wire.stopping { TurnReady(call, id, done); }
      case Disconnected => ConnectionClosed();
      case Retire(ticket) => PolicyClose(ticket);
      case CloseExpired =>
        if clock.closeTimer.Some? {
          clock := clock.(closeTimer := None);
          HardStop();
        }
      case Renamed(identity) => Identify(identity);
      case Tick(now) => if now >= clock.now { clock := clock.(now := now); }
    }

    /** Handle what is left in the inbox, in order. */
    method Drain(inbox: seq<Request>)
      modifies this
      ensures Snapshot() == Drained(env, old(Snapshot()), inbox)
    {
      hide M.Handle;
      var i := 0;
      while i < |inbox|
        invariant 0 <= i <= |inbox|
        invariant Drained(env, Snapshot(), inbox[i..]) == Drained(env, old(Snapshot()), inbox)
      {
        Handle(Routed(inbox[i]));
        assert inbox[i..][0] == inbox[i] && inbox[i..][1..] == inbox[i + 1..];
        i := i + 1;
      }
    }
  }

  function Drained(e: Env, s: State, inbox: seq<Request>): State
    decreases |inbox|
  {
    if inbox == [] then s else Drained(e, M.Handle(e, s, Routed(inbox[0])), inbox[1..])
  }
}
