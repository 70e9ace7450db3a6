/**
  Where the deliveries on a lane's wire come from: the session passes the
  marks of a delivery on as it got them, through queueing, writing and writing
  again.
 */
module Provenance {
  import opened Common
  import opened RunIds
  import opened SessionModel
  import opened SessionProofs

  /** Whether a delivery is a completion notice, and whether it is a trace copy. */
  datatype Mark = Mark(completion: bool, copy: bool)

  /** A delivery carries the marks its ticket came with. */
  predicate From(r: Request, marks: map<nat, Mark>) {
    r.verb == Deliver ==> r.ticket in marks && marks[r.ticket] == Mark(r.completion, r.traceCopy)
  }

  /** So does every delivery the session holds or has written. */
  ghost predicate Flagged(s: State, marks: map<nat, Mark>) {
    && (forall id :: id in s.calls.pending ==> From(s.calls.pending[id], marks))
    && (forall i :: 0 <= i < |s.calls.deferred| ==> From(s.calls.deferred[i], marks))
    && (forall i :: 0 <= i < |s.wire.sent| && s.wire.sent[i].Call? ==> From(s.wire.sent[i].request, marks))
    && (s.calls.closeCall.Some? ==> From(s.calls.closeCall.value, marks))
  }

  lemma MoreMarks(s: State, marks: map<nat, Mark>, t: nat, mark: Mark)
    requires Flagged(s, marks) && t !in marks
    ensures Flagged(s, marks[t := mark])
  {
  }

  lemma FrameFrom(s: State, marks: map<nat, Mark>, i: nat)
    requires Flagged(s, marks) && i < |s.wire.sent| && s.wire.sent[i].Call?
    ensures From(s.wire.sent[i].request, marks)
  {
    hide From;
  }

  /** Nothing is added to what the session holds or has written. */
  predicate Fewer(s: State, u: State) {
    && u.wire.sent == s.wire.sent && u.calls.closeCall == s.calls.closeCall && u.calls.pending == s.calls.pending
    && (u.calls.deferred == s.calls.deferred || u.calls.deferred == [])
  }

  lemma FewerFlagged(s: State, u: State, marks: map<nat, Mark>)
    requires Flagged(s, marks) && Fewer(s, u)
    ensures Flagged(u, marks)
  {
    hide From;
  }

  lemma RefuseFewer(s: State, id: Option<RunId>)
    ensures Fewer(s, RefuseRun(s, id))
  {
  }

  lemma WriteFlagged(e: Env, s: State, r: Request, marks: map<nat, Mark>)
    requires Flagged(s, marks) && From(r, marks)
    ensures Flagged(Write(e, s, r), marks)
  {
    hide From, RefuseRun, Noted;
    var id := s.calls.nextOut + 1;
    RefuseFewer(s.(calls := s.calls.(nextOut := id)), r.run);
    RefuseFewer(s.(calls := s.calls.(nextOut := id), wire := Send(e, s.wire, Call(id, r))), r.run);
  }

  lemma LaunchFlagged(e: Env, s: State, r: Request, marks: map<nat, Mark>)
    requires Flagged(s, marks) && From(r, marks)
    ensures Flagged(Launch(e, s, r), marks)
  {
    hide Write, Flagged;
    var s1 := ReserveRun(e, s);
    var s2 := s1.(runs := s1.runs.(fromTrace := r.verb == Deliver && r.traceCopy,
                                   fromCompletion := r.verb == Deliver && r.completion));
    FewerFlagged(s, s2, marks);
    WriteFlagged(e, s2, r.(run := s1.runs.current), marks);
  }

  lemma CloseFlagged(e: Env, s: State, marks: map<nat, Mark>)
    requires Flagged(s, marks)
    ensures Flagged(WriteDeferredClose(e, s), marks)
  {
    hide From;
  }

  lemma BeginCloseFlagged(e: Env, s: State, r: Request, marks: map<nat, Mark>)
    requires Flagged(s, marks) && From(r, marks)
    ensures Flagged(BeginClose(e, s, r), marks)
  {
    hide From, WriteDeferredClose, GivenUp;
    var m := CloseTaken(s, r);
    assert Flagged(m, marks);
    CloseFlagged(e, m, marks);
  }

  lemma IssueFlagged(e: Env, s: State, r0: Request, marks: map<nat, Mark>)
    requires Flagged(s, marks) && From(r0, marks)
    ensures Flagged(Issue(e, s, r0), marks)
  {
    hide Flagged, Launch, Write, BeginClose, Refusal;
    var r := Normalized(r0);
    assert From(r, marks);
    if Refusal(s, r0) != 0 {
      FewerFlagged(s, Issue(e, s, r0), marks);
    } else if r.verb == Close {
      BeginCloseFlagged(e, s, r, marks);
    } else if r.verb == Execute || Seeds(s, r) {
      LaunchFlagged(e, s, r, marks);
    } else {
      WriteFlagged(e, s, r, marks);
    }
  }

  lemma PoppedFlagged(s: State, marks: map<nat, Mark>)
    requires Flagged(s, marks) && s.calls.deferred != []
    ensures Flagged(Popped(s), marks) && From(s.calls.deferred[0], marks)
  {
    hide From;
  }

  lemma {:induction false} StartDeferredFlagged(e: Env, s: State, marks: map<nat, Mark>)
    requires Flagged(s, marks)
    ensures Flagged(StartDeferred(e, s), marks)
    decreases |s.calls.deferred|
  {
    hide Flagged, Issue, From;
    if s.runs.current.None? && s.calls.deferred != [] {
      PoppedFlagged(s, marks);
      IssueFlagged(e, Popped(s), s.calls.deferred[0], marks);
      StartDeferredFlagged(e, Issue(e, Popped(s), s.calls.deferred[0]), marks);
    }
  }

  lemma RetainFlagged(e: Env, s: State, r: Request, marks: map<nat, Mark>)
    requires Flagged(s, marks) && From(r, marks)
    ensures Flagged(Retain(e, s, r), marks)
  {
    hide Issue, HasRunCapacity;
    if s.runs.current.None? {
      IssueFlagged(e, s, r, marks);
    } else if !HasRunCapacity(s) {
      FewerFlagged(s, Retain(e, s, r), marks);
    } else {
      assert From(r.(scheduled := true), marks);
      hide From;
    }
  }

  lemma SettleFlagged(e: Env, s: State, r: Request, response: Response, marks: map<nat, Mark>)
    requires Flagged(s, marks) && From(r, marks)
    ensures Flagged(SettleResponse(e, s, r, response), marks)
  {
    hide Flagged, Issue, Retain, StartDeferred, RefuseRun, Noted, RecordAcknowledgment;
    var u := SettleResponse(e, s, r, response);
    RetainFlagged(e, s, r, marks);
    if response.Failed? {
      var s1 := if r.verb == Execute || response.code != INTERNAL then RefuseRun(s, r.run) else s;
      RefuseFewer(s, r.run);
      var s2 := AnswerRouted(s1, r, Refused(response.code));
      FewerFlagged(s, s2, marks);
      StartDeferredFlagged(e, s2, marks);
    } else if response.Succeeded? && response.ref.Some? {
      IssueFlagged(e, s, Collector(r, response.ref.value), marks);
    }
    if Fewer(s, u) {
      FewerFlagged(s, u, marks);
    }
  }

  lemma RemovedFlagged(s: State, id: nat, marks: map<nat, Mark>)
    requires Flagged(s, marks) && id in s.calls.pending
    ensures Flagged(Removed(s, id), marks) && From(s.calls.pending[id], marks)
  {
    hide From;
  }

  lemma ReceiveFlagged(e: Env, s: State, id: nat, response: Response, marks: map<nat, Mark>)
    requires Flagged(s, marks)
    ensures Flagged(ReceiveResponse(e, s, id, response), marks)
  {
    hide Flagged, SettleResponse, WriteDeferredClose, From;
    if id !in s.calls.pending {
      FewerFlagged(s, HardStop(s), marks);
    } else {
      var r, m := s.calls.pending[id], Removed(s, id);
      RemovedFlagged(s, id, marks);
      SettleFlagged(e, m, r, response, marks);
      CloseFlagged(e, SettleResponse(e, m, r, response), marks);
    }
  }

  lemma AckFlagged(e: Env, s: State, call: nat, done: bool, marks: map<nat, Mark>)
    requires Flagged(s, marks)
    ensures Flagged(TurnAcked(e, s, call, done), marks)
  {
    hide From;
  }

  lemma ReadyFlagged(e: Env, s: State, call: nat, id: RunId, done: bool, marks: map<nat, Mark>)
    requires Flagged(s, marks)
    ensures Flagged(TurnReady(e, s, call, id, done), marks)
  {
    hide Flagged, StartDeferred, TurnAcked;
    FewerFlagged(s, HardStop(s), marks);
    AckFlagged(e, s, call, done, marks);
    var m := StartDeferred(e, TurnAcked(e, s, call, done));
    StartDeferredFlagged(e, TurnAcked(e, s, call, done), marks);
    FewerFlagged(m, m.(books := m.books.(notices := m.books.notices + [Charge(id, !s.runs.fromTrace)])), marks);
  }

  lemma SettledFlagged(s: State, u: State, marks: map<nat, Mark>)
    requires Flagged(s, marks) && u.wire.sent == s.wire.sent && u.calls == s.calls.(pending := map[], deferred := [])
    ensures Flagged(u, marks)
  {
    hide From;
  }

  /** Whatever happens to a session, its deliveries keep the marks they came with. */
  lemma HandleFlagged(e: Env, s: State, event: Event, marks: map<nat, Mark>)
    requires Flagged(s, marks) && (event.Routed? ==> From(event.request, marks))
    ensures Flagged(Handle(e, s, event), marks)
  {
    hide Flagged, Issue, ReceiveResponse, TurnReady, BeginClose, GivenUp, Settled, Noted;
    match event
    case Routed(r) => IssueFlagged(e, s, r, marks); FewerFlagged(s, AnswerRouted(s, r, Refused(NOT_CONNECTED)), marks);
    case Answered(id, response) => ReceiveFlagged(e, s, id, response, marks);
    case Ready(call, id, done) => ReadyFlagged(e, s, call, id, done, marks);
    case Disconnected => if !s.wire.closed { SettledFlagged(s, Handle(e, s, event), marks); }
    case Retire(ticket) =>
      BeginCloseFlagged(e, s, Request(ticket, s.entry.identity, Close, None, None, false, false, false, false), marks);
    case CloseExpired => FewerFlagged(s, Handle(e, s, event), marks);
    case Renamed(identity) => if s.entry.peer && !s.wire.stopping { SettledFlagged(s, Handle(e, s, event), marks); }
    case Tick(now) => FewerFlagged(s, Handle(e, s, event), marks);
  }

  // ---- charges ----

  lemma {:induction false} GivenUpCharges(b: Books, rs: seq<Request>, code: int)
    ensures GivenUp(b, rs, code).notices == b.notices
    decreases |rs|
  {
    if rs != [] {
      GivenUpCharges(Noted(b, rs[0], Refused(code)).(popped := b.popped + [rs[0].ticket]), rs[1..], code);
    }
  }

  lemma IssueCharges(e: Env, s: State, r: Request)
    ensures Issue(e, s, r).books.notices == s.books.notices
  {
    hide GivenUp, Refusal;
    GivenUpCharges(s.books, s.calls.deferred, BUSY);
  }

  lemma {:induction false} StartDeferredCharges(e: Env, s: State)
    ensures StartDeferred(e, s).books.notices == s.books.notices
    decreases |s.calls.deferred|
  {
    hide Issue;
    if s.runs.current.None? && s.calls.deferred != [] {
      IssueCharges(e, Popped(s), s.calls.deferred[0]);
      StartDeferredCharges(e, Issue(e, Popped(s), s.calls.deferred[0]));
    }
  }

  lemma SettleCharges(e: Env, s: State, r: Request, response: Response)
    ensures SettleResponse(e, s, r, response).books.notices == s.books.notices
  {
    hide Issue, StartDeferred, RefuseRun;
    forall u: State, q: Request ensures Issue(e, u, q).books.notices == u.books.notices { IssueCharges(e, u, q); }
    forall u: State ensures StartDeferred(e, u).books.notices == u.books.notices { StartDeferredCharges(e, u); }
    RefuseCharges(s, r.run);
  }

  lemma RefuseCharges(s: State, id: Option<RunId>)
    ensures RefuseRun(s, id).books == s.books
  {
  }

  lemma CloseCharges(e: Env, s: State)
    ensures WriteDeferredClose(e, s).books == s.books
  {
  }

  /** An event charges at most one notice, to the run whose turn it ends. */
  lemma HandleCharges(e: Env, s: State, event: Event)
    ensures var u := Handle(e, s, event);
      u.books.notices == s.books.notices || (event.Ready? && u.books.notices == s.books.notices + [Charge(event.run, !s.runs.fromTrace)])
  {
    hide Issue, SettleResponse, StartDeferred, WriteDeferredClose, GivenUp, Settled;
    GivenUpCharges(s.books, s.calls.deferred, BUSY);
    GivenUpCharges(s.books, s.calls.deferred, NOT_CONNECTED);
    match event
    case Routed(r) => IssueCharges(e, s, r);
    case Answered(id, response) =>
      if id in s.calls.pending {
        var m := Removed(s, id);
        SettleCharges(e, m, s.calls.pending[id], response);
        CloseCharges(e, SettleResponse(e, m, s.calls.pending[id], response));
      }
    case Ready(call, id, done) => StartDeferredCharges(e, TurnAcked(e, s, call, done));
    case Retire(ticket) => CloseCharges(e, CloseTaken(s, Request(ticket, s.entry.identity, Close, None, None, false, false, false, false)));
    case _ =>
  }
}
