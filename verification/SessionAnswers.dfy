/**
  What callers are told. A session passes on what its worker says: a success as a
  success, a failure with its code; a refusal of its own says that the lane is
  busy, has no run, or is not connected; and the promise of a later run is given
  exactly to the deliveries that are queued.
 */
module SessionAnswers {
  import opened Common
  import opened RunIds
  import opened SessionModel
  import opened SessionLedger
  import opened SessionLoop

  /** What a session says of its own accord. */
  predicate OwnRefusal(a: Answer) { a == Refused(BUSY) || a == Refused(NOT_CONNECTED) || a == Refused(NOT_RUNNING) }

  /** A caller, or the log in place of one, is told an answer. */
  predicate Tells(b: Books, t: nat, a: Answer) { a in At(b.replies, t) || a in At(b.notes, t) }

  /** The same is said, with refusals of the session's own besides. */
  ghost predicate Grows(b: Books, c: Books) {
    && c.queued == b.queued
    && (forall t: nat, a :: a in At(c.replies, t) ==> a in At(b.replies, t) || OwnRefusal(a))
    && (forall t: nat, a :: a in At(c.notes, t) ==> a in At(b.notes, t) || OwnRefusal(a))
    && (forall t: nat, a :: a in At(b.replies, t) ==> a in At(c.replies, t))
    && (forall t: nat, a :: a in At(b.notes, t) ==> a in At(c.notes, t))
  }

  lemma GrowsTwice(b: Books, c: Books, d: Books)
    requires Grows(b, c) && Grows(c, d)
    ensures Grows(b, d)
  {
    hide At, OwnRefusal;
  }

  lemma NotedGrows(b: Books, r: Request, a: Answer)
    requires OwnRefusal(a)
    ensures Grows(b, Noted(b, r, a))
  {
  }

  lemma SameGrows(b: Books, c: Books)
    requires c.queued == b.queued && c.replies == b.replies && c.notes == b.notes
    ensures Grows(b, c)
  {
  }

  lemma {:induction false} GivenUpGrows(b: Books, rs: seq<Request>, code: int)
    requires OwnRefusal(Refused(code))
    ensures Grows(b, GivenUp(b, rs, code))
    decreases |rs|
  {
    if rs == [] {
      SameGrows(b, b);
    } else {
      hide Grows, Noted;
      var m := Noted(b, rs[0], Refused(code));
      var c := m.(popped := b.popped + [rs[0].ticket]);
      NotedGrows(b, rs[0], Refused(code));
      SameGrows(m, c);
      GrowsTwice(b, m, c);
      GivenUpGrows(c, rs[1..], code);
      GrowsTwice(b, c, GivenUp(c, rs[1..], code));
    }
  }

  lemma WriteGrows(e: Env, s: State, r: Request)
    ensures Grows(s.books, Write(e, s, r).books)
  {
    hide Grows, Noted;
    SameGrows(s.books, s.books);
    NotedGrows(s.books, r, Refused(NOT_CONNECTED));
  }

  lemma CloseGrows(e: Env, s: State)
    ensures WriteDeferredClose(e, s).books == s.books
  {
  }

  lemma BeginCloseGrows(e: Env, s: State, r: Request)
    ensures Grows(s.books, BeginClose(e, s, r).books)
  {
    hide Grows, GivenUp, WriteDeferredClose;
    GivenUpGrows(s.books, s.calls.deferred, BUSY);
    var s1 := SettleDeferred(s, BUSY);
    CloseGrows(e, s1.(calls := s1.calls.(closeCall := Some(r)),
                      clock := s.clock.(armed := false, closeTimer := Some(s.clock.now + CLOSE_BOUND))));
  }

  lemma IssueGrows(e: Env, s: State, r0: Request)
    ensures Grows(s.books, Issue(e, s, r0).books)
  {
    hide Grows, Noted, Write, BeginClose, HasRunCapacity;
    var r := Normalized(r0);
    if Refusal(s, r0) != 0 {
      NotedGrows(s.books, r, Refused(Refusal(s, r0)));
    } else if r.verb == Close {
      BeginCloseGrows(e, s, r);
    } else if r.verb == Execute || Seeds(s, r) {
      var s1 := ReserveRun(e, s);
      WriteGrows(e, s1.(runs := s1.runs.(fromTrace := r.verb == Deliver && r.traceCopy,
                                         fromCompletion := r.verb == Deliver && r.completion)), r.(run := s1.runs.current));
    } else {
      WriteGrows(e, s, r);
    }
  }

  lemma {:induction false} StartDeferredGrows(e: Env, s: State)
    ensures Grows(s.books, StartDeferred(e, s).books)
    decreases |s.calls.deferred|
  {
    hide Grows, Issue;
    SameGrows(s.books, s.books);
    if s.runs.current.None? && s.calls.deferred != [] {
      var m := Issue(e, Popped(s), s.calls.deferred[0]);
      SameGrows(s.books, Popped(s).books);
      IssueGrows(e, Popped(s), s.calls.deferred[0]);
      GrowsTwice(s.books, Popped(s).books, m.books);
      StartDeferredGrows(e, m);
      GrowsTwice(s.books, m.books, StartDeferred(e, m).books);
    }
  }

  lemma SettledSays(c: Calls, m: map<nat, seq<Answer>>, code: int, scheduled: bool, t: nat, a: Answer)
    ensures a in At(Settled(c, m, code, scheduled), t) ==> a in At(m, t) || a == Refused(code)
    ensures a in At(m, t) ==> a in At(Settled(c, m, code, scheduled), t)
  {
    var u := Settled(c, m, code, scheduled);
    if t in u {
      assert u[t] == At(m, t) + Repeat(Refused(code), |Holders(c, t, scheduled)|);
    }
  }

  lemma SettlePendingGrows(s: State, code: int)
    requires OwnRefusal(Refused(code))
    ensures Grows(s.books, SettlePending(s, code).books)
  {
    var s1, u := SettleDeferred(s, code), SettlePending(s, code);
    assert Grows(s.books, s1.books) by { hide Grows, GivenUp; GivenUpGrows(s.books, s.calls.deferred, code); }
    assert Grows(s1.books, u.books) by {
      hide Settled, GivenUp, At;
      forall t: nat, a: Answer
        ensures a in At(u.books.replies, t) ==> a in At(s1.books.replies, t) || a == Refused(code)
        ensures a in At(s1.books.replies, t) ==> a in At(u.books.replies, t)
        ensures a in At(u.books.notes, t) ==> a in At(s1.books.notes, t) || a == Refused(code)
        ensures a in At(s1.books.notes, t) ==> a in At(u.books.notes, t)
      {
        SettledSays(s1.calls, s1.books.replies, code, false, t, a);
        SettledSays(s1.calls, s1.books.notes, code, true, t, a);
      }
    }
    hide Grows;
    GrowsTwice(s.books, s1.books, u.books);
  }

  // ---- what a response means for a caller ----

  predicate Mine(s: State, r: Request) { r.destination == s.entry.identity && s.entry.attached }

  /** The session reads a response to a call that is not the close. */
  predicate Heeds(s: State, event: Event) {
    && event.Answered? && !s.wire.stopping && event.id in s.calls.pending
    && Mine(s, s.calls.pending[event.id]) && s.calls.pending[event.id].verb != Close
  }

  /** A delivery that the worker says it has not submitted, which may become a run of its own. */
  predicate Declines(s: State, r: Request, response: Response) {
    && r.verb == Deliver && r.run.None? && response == Failed(NOT_RUNNING)
    && !s.entry.peer && s.calls.closeCall.None?
  }

  /** An execute is answered by naming its run; the blocking form is answered by the read that follows. */
  predicate Completes(r: Request, response: Response) {
    response.Succeeded? && (r.verb == Execute ==> !r.collect && response.ref.Some? && response.ref == r.run)
  }

  /** What the caller of an answered call is told in the worker's words, if anything. */
  function Verdict(s: State, event: Event): Option<Answer> {
    if !Heeds(s, event) then None else
    var r := s.calls.pending[event.id];
    match event.response
    case Failed(code) => if Declines(s, r, event.response) then None else Some(Refused(code))
    case Succeeded(_) => if Completes(r, event.response) then Some(Done) else None
    case Undecodable => None
  }

  /** A declined delivery is promised the next turn: a run is under way, and there will be a record for its result. */
  predicate Queues(s: State, event: Event) {
    Heeds(s, event) && Declines(s, s.calls.pending[event.id], event.response) && s.runs.current.Some? && HasRunCapacity(s)
  }

  function Promise(b: Books, r: Request): Books { Noted(b, r, Queued).(queued := b.queued + [r.ticket]) }

  /** Whose call was answered. */
  function AskedBy(s: State, event: Event): nat {
    if event.Answered? && event.id in s.calls.pending then s.calls.pending[event.id].ticket else 0
  }

  /** What the books say after an event, but for refusals of the session's own. */
  function Said(s: State, event: Event): Books {
    if Verdict(s, event).Some? then Noted(s.books, s.calls.pending[event.id], Verdict(s, event).value)
    else if Queues(s, event) then Promise(s.books, s.calls.pending[event.id])
    else s.books
  }

  lemma FailSays(e: Env, s: State, r: Request, code: int)
    ensures Grows(Noted(s.books, r, Refused(code)), FailResponse(e, s, r, code).books)
  {
    hide Grows, Noted, StartDeferred, RefuseRun;
    RefuseSays(s, r.run);
    var s1 := if r.verb == Execute || code != INTERNAL then RefuseRun(s, r.run) else s;
    StartDeferredGrows(e, AnswerRouted(s1, r, Refused(code)));
  }

  lemma RefuseSays(s: State, id: Option<RunId>)
    ensures RefuseRun(s, id).books == s.books
  {
  }

  lemma SettleSays(e: Env, s: State, r: Request, response: Response)
    requires Mine(s, r) && r.verb != Close
    ensures var u := SettleResponse(e, s, r, response);
      if Declines(s, r, response) then
        Grows(if s.runs.current.Some? && HasRunCapacity(s) then Promise(s.books, r) else s.books, u.books)
      else match response
        case Failed(code) => Grows(Noted(s.books, r, Refused(code)), u.books)
        case Succeeded(_) => Grows(if Completes(r, response) then Noted(s.books, r, Done) else s.books, u.books)
        case Undecodable => Grows(s.books, u.books)
  {
    hide Grows, Noted, Issue, FailResponse, HasRunCapacity;
    SameGrows(Noted(s.books, r, Done), Noted(s.books, r, Done));
    SameGrows(Promise(s.books, r), Promise(s.books, r));
    NotedGrows(s.books, r, Refused(NOT_CONNECTED));
    NotedGrows(s.books, r, Refused(BUSY));
    IssueGrows(e, s, r);
    if response.Failed? {
      FailSays(e, s, r, response.code);
    }
    if response.Succeeded? && response.ref.Some? {
      IssueGrows(e, s, Collector(r, response.ref.value));
    }
  }

  lemma ReceiveSays(e: Env, s: State, id: nat, response: Response)
    requires !s.wire.stopping
    ensures Grows(Said(s, Answered(id, response)), ReceiveResponse(e, s, id, response).books)
  {
    hide Grows, Noted, SettleResponse, WriteDeferredClose, HasRunCapacity;
    SameGrows(s.books, s.books);
    if id in s.calls.pending {
      var r, m := s.calls.pending[id], s.(calls := s.calls.(pending := s.calls.pending - {id}));
      assert HasRunCapacity(m) == HasRunCapacity(s) by { SameCapacity(s, m); }
      CloseGrows(e, SettleResponse(e, m, r, response));
      if !Mine(s, r) || r.verb == Close {
        NotedGrows(s.books, r, Refused(NOT_CONNECTED));
        AsideSays(e, m, r, response);
      } else {
        SettleSays(e, m, r, response);
      }
    }
  }

  lemma SameCapacity(s: State, m: State)
    requires m.runs == s.runs && m.calls.deferred == s.calls.deferred
    ensures HasRunCapacity(m) == HasRunCapacity(s)
  {
  }

  lemma AsideSays(e: Env, s: State, r: Request, response: Response)
    requires !Mine(s, r) || r.verb == Close
    ensures SettleResponse(e, s, r, response).books == if Mine(s, r) then s.books else Noted(s.books, r, Refused(NOT_CONNECTED))
  {
  }

  lemma HandleSays(e: Env, s: State, event: Event)
    ensures Grows(Said(s, event), Handle(e, s, event).books)
  {
    hide Grows, Noted, Issue, ReceiveResponse, StartDeferred, BeginClose, SettlePending, HasRunCapacity;
    SameGrows(s.books, s.books);
    match event
    case Routed(r) =>
      NotedGrows(s.books, r, Refused(NOT_CONNECTED));
      IssueGrows(e, s, r);
    case Answered(id, response) => if !s.wire.stopping { ReceiveSays(e, s, id, response); }
    case Ready(call, id, done) =>
      if !s.wire.stopping && ReadyMatches(s, id) {
        var m := TurnAcked(e, s, call, done);
        StartDeferredGrows(e, m);
        SameGrows(StartDeferred(e, m).books, TurnReady(e, s, call, id, done).books);
        GrowsTwice(s.books, StartDeferred(e, m).books, TurnReady(e, s, call, id, done).books);
      }
    case Disconnected =>
      SettlePendingGrows(s.(wire := s.wire.(stopping := true, closed := true, cut := true),
                            clock := s.clock.(armed := false),
                            entry := s.entry.(attached := false, running := false, claimed := s.entry.claimed || !s.entry.peer)),
                         NOT_CONNECTED);
    case Retire(ticket) => BeginCloseGrows(e, s, Request(ticket, s.entry.identity, Close, None, None, false, false, false, false));
    case CloseExpired =>
    case Renamed(identity) => SettlePendingGrows(s, NOT_CONNECTED);
    case Tick(now) =>
  }

  // ---- every run ----

  /** The tickets that were told something in the worker's words, with what they were told. */
  function Heard(e: Env, l: Loop, actions: seq<Action>): set<(nat, Answer)>
    requires Possible(e, l, actions)
    decreases |actions|
  {
    if actions == [] then {} else
    var rest := Heard(e, Act(e, l, actions[0]), actions[1..]);
    if actions[0].Own? && Verdict(l.s, actions[0].event).Some?
    then rest + {(AskedBy(l.s, actions[0].event), Verdict(l.s, actions[0].event).value)} else rest
  }

  /** The books say what was said before and heard since, refusals of the session's own apart; promises are those of the queue. */
  ghost predicate SaysOnly(was: Books, heard: set<(nat, Answer)>, now: Books) {
    && (forall t: nat, a: Answer :: Tells(was, t, a) || (t, a) in heard ==> Tells(now, t, a))
    && (forall t: nat, a: Answer :: Tells(now, t, a) && !OwnRefusal(a) && a != Queued ==> Tells(was, t, a) || (t, a) in heard)
  }

  ghost predicate PromisesTold(b: Books) {
    forall t: nat :: (Queued in At(b.replies, t) <==> t in b.queued) && Queued !in At(b.notes, t)
  }

  lemma GrowsTells(b: Books, c: Books, t: nat, a: Answer)
    requires Grows(b, c)
    ensures Tells(b, t, a) ==> Tells(c, t, a)
    ensures Tells(c, t, a) ==> Tells(b, t, a) || OwnRefusal(a)
    ensures Queued in At(c.replies, t) <==> Queued in At(b.replies, t)
    ensures Queued in At(c.notes, t) <==> Queued in At(b.notes, t)
  {
    assert !OwnRefusal(Queued);
  }

  lemma SaidTells(s: State, event: Event, t: nat, a: Answer)
    ensures var v := Verdict(s, event);
      Tells(Said(s, event), t, a) <==>
        Tells(s.books, t, a) || (v.Some? && t == AskedBy(s, event) && a == v.value)
        || (Queues(s, event) && t == AskedBy(s, event) && a == Queued)
  {
    hide HasRunCapacity;
  }

  /** What is said after an event was said before, or is in the worker's words, or is a promise or a refusal of the session's own. */
  lemma StepSaysOnly(e: Env, s: State, event: Event)
    ensures var v := Verdict(s, event);
      SaysOnly(s.books, if v.Some? then {(AskedBy(s, event), v.value)} else {}, Handle(e, s, event).books)
  {
    HandleSays(e, s, event);
    hide Handle, Tells, Verdict, Said, Grows, Queues;
    var u := Handle(e, s, event).books;
    forall t: nat, a: Answer
      ensures Tells(Said(s, event), t, a) ==> Tells(u, t, a)
      ensures Tells(u, t, a) ==> Tells(Said(s, event), t, a) || OwnRefusal(a)
    {
      GrowsTells(Said(s, event), u, t, a);
    }
    forall t: nat, a: Answer
      ensures var v := Verdict(s, event);
        Tells(Said(s, event), t, a) <==>
          Tells(s.books, t, a) || (v.Some? && t == AskedBy(s, event) && a == v.value)
          || (Queues(s, event) && t == AskedBy(s, event) && a == Queued)
    {
      SaidTells(s, event, t, a);
    }
  }

  lemma SaidPromises(s: State, event: Event)
    requires PromisesTold(s.books) && TablesOk(s)
    ensures PromisesTold(Said(s, event))
  {
    hide HasRunCapacity;
    if Queues(s, event) {
      assert !s.calls.pending[event.id].scheduled;
    }
  }

  lemma StepPromises(e: Env, s: State, event: Event)
    requires PromisesTold(s.books) && TablesOk(s)
    ensures PromisesTold(Handle(e, s, event).books)
  {
    HandleSays(e, s, event);
    SaidPromises(s, event);
    hide Handle, At, Said, Grows;
    var b, u := Said(s, event), Handle(e, s, event).books;
    forall t: nat
      ensures Queued in At(u.replies, t) <==> t in u.queued
      ensures Queued !in At(u.notes, t)
    {
      GrowsTells(b, u, t, Queued);
      SameQueue(b, u);
    }
  }

  lemma SameQueue(b: Books, c: Books)
    requires Grows(b, c)
    ensures c.queued == b.queued
  {
  }

  lemma ActSays(e: Env, l: Loop, a: Action)
    requires Allowed(l, a) && LoopOk(l) && PromisesTold(l.s.books)
    ensures var v := if a.Own? then Verdict(l.s, a.event) else None;
      SaysOnly(l.s.books, if v.Some? then {(AskedBy(l.s, a.event), v.value)} else {}, Act(e, l, a).s.books)
    ensures PromisesTold(Act(e, l, a).s.books)
  {
    hide Handle, SaysOnly, PromisesTold, TablesOk, QueueOk;
    match a
    case Post(r) => SilentSays(l.s.books);
    case Take => StepSaysOnly(e, l.s, Routed(l.inbox[0])); StepPromises(e, l.s, Routed(l.inbox[0]));
    case Own(event) => StepSaysOnly(e, l.s, event); StepPromises(e, l.s, event);
  }

  lemma SilentSays(b: Books)
    ensures SaysOnly(b, {}, b)
  {
  }

  lemma SaysMore(a: Books, b: Books, c: Books, x: set<(nat, Answer)>, y: set<(nat, Answer)>)
    requires SaysOnly(a, x, b) && SaysOnly(b, y, c)
    ensures SaysOnly(a, x + y, c)
  {
    hide Tells, OwnRefusal;
  }

  lemma {:induction false} RunSays(e: Env, l: Loop, actions: seq<Action>)
    requires LoopOk(l) && PromisesTold(l.s.books) && Possible(e, l, actions)
    ensures SaysOnly(l.s.books, Heard(e, l, actions), After(e, l, actions).s.books) && PromisesTold(After(e, l, actions).s.books)
    decreases |actions|
  {
    hide LoopOk, Act, Allowed, SaysOnly, PromisesTold, Verdict;
    SilentSays(l.s.books);
    if actions != [] {
      var m := Act(e, l, actions[0]);
      ActOk(e, l, actions[0]);
      ActSays(e, l, actions[0]);
      RunSays(e, m, actions[1..]);
      var v := if actions[0].Own? then Verdict(l.s, actions[0].event) else None;
      var x: set<(nat, Answer)> := if v.Some? then {(AskedBy(l.s, actions[0].event), v.value)} else {};
      SaysMore(l.s.books, m.s.books, After(e, m, actions[1..]).s.books, x, Heard(e, m, actions[1..]));
      assert x + Heard(e, m, actions[1..]) == Heard(e, l, actions);
    }
  }

  /**
    In every run of a session, whatever the other end of the wire does: a request
    is told Done, or refused with a code that is not the session's own, if and
    only if its worker said so; everything the worker said is told; and the
    promise of the next turn is given exactly to the deliveries put in the queue,
    never to the log.
   */
  lemma AnswersAreTheWorkers(e: Env, identity: nat, peer: bool, launching: bool, actions: seq<Action>, t: nat, a: Answer)
    requires Possible(e, Begun(identity, peer, launching), actions)
    ensures var b, heard := After(e, Begun(identity, peer, launching), actions).s.books, Heard(e, Begun(identity, peer, launching), actions);
      && ((t, a) in heard ==> Tells(b, t, a))
      && (Tells(b, t, a) && !OwnRefusal(a) && a != Queued ==> (t, a) in heard)
      && (Queued in At(b.replies, t) <==> t in b.queued) && Queued !in At(b.notes, t)
  {
    hide LoopOk, After, Heard, Possible;
    var start := Begun(identity, peer, launching);
    StartOk(identity, peer, launching);
    NothingSaid(identity, peer, launching);
    RunSays(e, start, actions);
  }

  lemma NothingSaid(identity: nat, peer: bool, launching: bool)
    ensures var b := Begun(identity, peer, launching).s.books; PromisesTold(b) && forall t: nat, a: Answer :: !Tells(b, t, a)
  {
  }

  /** Everything heard is a success or a failure. */
  lemma {:induction false} HeardShape(e: Env, l: Loop, actions: seq<Action>)
    requires Possible(e, l, actions)
    ensures forall t: nat :: (t, Queued) !in Heard(e, l, actions)
    decreases |actions|
  {
    hide Act, Allowed;
    if actions != [] {
      HeardShape(e, Act(e, l, actions[0]), actions[1..]);
    }
  }

  /**
    When a session's loop has returned, the one answer of each request is
    determined: the close fails only if the lane was to be forgotten and was not;
    a promised delivery was told so, and its log has the worker's verdict if
    there was one; any other request was told the worker's verdict if there was
    one; and without a verdict the session itself has said busy, no run, or not
    connected.
   */
  lemma FinalAnswer(e: Env, identity: nat, peer: bool, launching: bool, actions: seq<Action>, forget: bool, deleted: bool, t: nat, a: Answer)
    requires Possible(e, Begun(identity, peer, launching), actions)
    requires var l := After(e, Begun(identity, peer, launching), actions); l.s.wire.closed && l.inbox == [] && t in l.seen
    ensures var l, heard := After(e, Begun(identity, peer, launching), actions), Heard(e, Begun(identity, peer, launching), actions);
      var final := FinishLane(l.s, forget, deleted).books;
      if CloseTicket(l.s.calls) == Some(t) then At(final.replies, t) == [if forget && !deleted then Refused(INTERNAL) else Done]
      else if t in l.s.books.queued then
        && At(final.replies, t) == [Queued] && |At(final.notes, t)| == 1
        && ((t, a) in heard ==> At(final.notes, t) == [a])
        && ((forall x :: (t, x) !in heard) ==> OwnRefusal(At(final.notes, t)[0]))
      else
        && |At(final.replies, t)| == 1 && ((t, a) in heard ==> At(final.replies, t) == [a])
        && ((forall x :: (t, x) !in heard) ==> OwnRefusal(At(final.replies, t)[0]))
  {
    hide LoopOk, Possible, After, Heard, Begun, Tells;
    var start := Begun(identity, peer, launching);
    ExactlyOneAnswer(e, identity, peer, launching, actions, forget, deleted, t);
    StartOk(identity, peer, launching);
    RunOk(e, start, actions);
    HeardShape(e, start, actions);
    var l, heard := After(e, start, actions), Heard(e, start, actions);
    FinishSays(l, forget, deleted, t);
    hide FinishLane;
    QueuedOnce(l.s.books.queued, t);
    forall x
      ensures ((t, x) in heard ==> Tells(l.s.books, t, x)) && (Tells(l.s.books, t, x) && !OwnRefusal(x) && x != Queued ==> (t, x) in heard)
      ensures (Queued in At(l.s.books.replies, t) <==> t in l.s.books.queued) && Queued !in At(l.s.books.notes, t)
    {
      AnswersAreTheWorkers(e, identity, peer, launching, actions, t, x);
    }
    Determined(l.s.books, heard, At(FinishLane(l.s, forget, deleted).books.replies, t), t, a,
               if CloseTicket(l.s.calls) == Some(t) then [if forget && !deleted then Refused(INTERNAL) else Done] else []);
  }

  lemma QueuedOnce(queued: seq<nat>, t: nat)
    ensures t in queued <==> Occurs(queued, t) >= 1
  {
  }

  /** One answer each, and what may be in it, leave one possibility. */
  lemma Determined(b: Books, heard: set<(nat, Answer)>, final: seq<Answer>, t: nat, a: Answer, last: seq<Answer>)
    requires |final| == 1 && final == At(b.replies, t) + last && |At(b.notes, t)| == if t in b.queued then 1 else 0
    requires forall x :: (t, x) in heard ==> Tells(b, t, x)
    requires forall x :: Tells(b, t, x) && !OwnRefusal(x) && x != Queued ==> (t, x) in heard
    requires (Queued in At(b.replies, t) <==> t in b.queued) && Queued !in At(b.notes, t) && (t, Queued) !in heard
    ensures last != [] ==> final == last
    ensures last == [] && t in b.queued ==>
      && final == [Queued] && ((t, a) in heard ==> At(b.notes, t) == [a])
      && ((forall x :: (t, x) !in heard) ==> OwnRefusal(At(b.notes, t)[0]))
    ensures last == [] && t !in b.queued ==>
      ((t, a) in heard ==> final == [a]) && ((forall x :: (t, x) !in heard) ==> OwnRefusal(final[0]))
  {
    hide At;
    if last == [] && t in b.queued {
      assert At(b.replies, t) == [Queued];
      assert Tells(b, t, At(b.notes, t)[0]);
    } else if last == [] {
      assert Tells(b, t, final[0]);
      assert (t, a) in heard ==> Tells(b, t, a);
    }
  }

  /** What the end of the loop adds. */
  lemma FinishSays(l: Loop, forget: bool, deleted: bool, t: nat)
    requires LoopOk(l)
    ensures var final := FinishLane(l.s, forget, deleted).books;
      && final.queued == l.s.books.queued && At(final.notes, t) == At(l.s.books.notes, t)
      && (CloseTicket(l.s.calls) != Some(t) ==> At(final.replies, t) == At(l.s.books.replies, t))
      && (CloseTicket(l.s.calls) == Some(t) ==>
            At(final.replies, t) == At(l.s.books.replies, t) + [if forget && !deleted then Refused(INTERNAL) else Done])
  {
    hide QueueOk, Tokens, Dues, Promises;
  }

  // ---- one response ----

  lemma IssueSilent(e: Env, s: State, r: Request)
    requires r.scheduled && r.verb == Deliver
    ensures Issue(e, s, r).books.replies == s.books.replies
  {
    hide Refusal;
  }

  lemma {:induction false} DrainSilent(e: Env, s: State)
    requires forall i :: 0 <= i < |s.calls.deferred| ==> s.calls.deferred[i].scheduled && s.calls.deferred[i].verb == Deliver
    ensures StartDeferred(e, s).books.replies == s.books.replies
    decreases |s.calls.deferred|
  {
    hide Issue;
    if s.runs.current.None? && s.calls.deferred != [] {
      IssueSilent(e, Popped(s), s.calls.deferred[0]);
      DeferredShrinks(e, Popped(s), s.calls.deferred[0]);
      DrainSilent(e, Issue(e, Popped(s), s.calls.deferred[0]));
    }
  }

  lemma DeferredShrinks(e: Env, s: State, r: Request)
    requires r.verb == Deliver
    ensures Issue(e, s, r).calls.deferred == s.calls.deferred
  {
    hide Refusal, Write;
  }

  /** The books after one more entry on a ticket. */
  ghost predicate OneMoreAnswer(m: map<nat, seq<Answer>>, u: map<nat, seq<Answer>>, t: nat, a: Answer) {
    forall k: nat :: At(u, k) == At(m, k) + if k == t then [a] else []
  }

  /**
    A response is passed on to the one who asked, and to nobody else: success as
    Done, failure with its code; a response that cannot be read, or names another
    run, as not connected, and the wire is cut.
   */
  lemma ResponseIsPassedOn(e: Env, s: State, id: nat, response: Response)
    requires TablesOk(s) && Heeds(s, Answered(id, response))
    ensures var r, u := s.calls.pending[id], Handle(e, s, Answered(id, response));
      && (Completes(r, response) && !r.scheduled ==>
            OneMoreAnswer(s.books.replies, u.books.replies, r.ticket, Done) && u.books.notes == s.books.notes)
      && (Completes(r, response) && r.scheduled ==>
            OneMoreAnswer(s.books.notes, u.books.notes, r.ticket, Done) && u.books.replies == s.books.replies)
      && (response.Failed? && !Declines(s, r, response) && !r.scheduled ==>
            OneMoreAnswer(s.books.replies, u.books.replies, r.ticket, Refused(response.code)))
      && (response.Failed? && !Declines(s, r, response) && r.scheduled ==>
            u.books.replies == s.books.replies && Refused(response.code) in At(u.books.notes, r.ticket))
      && ((response.Undecodable? || (response.Succeeded? && r.verb == Execute && (response.ref.None? || response.ref != r.run))) && !r.scheduled ==>
            OneMoreAnswer(s.books.replies, u.books.replies, r.ticket, Refused(NOT_CONNECTED)) && u.wire.cut)
  {
    hide Issue, WriteDeferredClose, RefuseRun, HasRunCapacity;
    var r, m := s.calls.pending[id], s.(calls := s.calls.(pending := s.calls.pending - {id}));
    CloseGrows(e, SettleResponse(e, m, r, response));
    CloseCut(e, SettleResponse(e, m, r, response));
    if response.Failed? && !Declines(s, r, response) {
      FailExact(e, m, r, response.code);
      hide FailResponse;
    }
  }

  lemma CloseCut(e: Env, s: State)
    ensures s.wire.cut ==> WriteDeferredClose(e, s).wire.cut
  {
  }

  lemma FailExact(e: Env, s: State, r: Request, code: int)
    requires CallTables(s.calls, s.entry.identity)
    ensures var u := FailResponse(e, s, r, code);
      if r.scheduled then u.books.replies == s.books.replies && Refused(code) in At(u.books.notes, r.ticket)
      else OneMoreAnswer(s.books.replies, u.books.replies, r.ticket, Refused(code))
  {
    hide StartDeferred, RefuseRun;
    RefuseSays(s, r.run);
    var s1 := if r.verb == Execute || code != INTERNAL then RefuseRun(s, r.run) else s;
    RefuseKeepsCalls(s, r.run);
    var s2 := AnswerRouted(s1, r, Refused(code));
    DrainSilent(e, s2);
    StartDeferredGrows(e, s2);
    assert r.scheduled ==> Refused(code) in At(s2.books.notes, r.ticket);
  }

  lemma RefuseKeepsCalls(s: State, id: Option<RunId>)
    ensures RefuseRun(s, id).calls == s.calls
  {
  }

  // ---- everybody is told ----

  /** Giving up queued deliveries logs the same refusal for each, once for every time it is queued, and answers nobody again. */
  lemma {:induction false} GivenUpSays(b: Books, rs: seq<Request>, code: int, t: nat)
    requires forall i :: 0 <= i < |rs| ==> rs[i].scheduled
    ensures At(GivenUp(b, rs, code).notes, t) == At(b.notes, t) + Repeat(Refused(code), Occurs(TicketsOf(rs), t))
    ensures GivenUp(b, rs, code).replies == b.replies
    decreases |rs|
  {
    if rs == [] {
      assert TicketsOf(rs) == [];
    } else {
      var c := Noted(b, rs[0], Refused(code)).(popped := b.popped + [rs[0].ticket]);
      GivenUpSays(c, rs[1..], code, t);
      OccursFirst(rs, t);
      var n := Occurs(TicketsOf(rs[1..]), t);
      assert [Refused(code)] + Repeat(Refused(code), n) == Repeat(Refused(code), n + 1);
      assert At(b.notes, t) + [Refused(code)] + Repeat(Refused(code), n) == At(b.notes, t) + ([Refused(code)] + Repeat(Refused(code), n));
    }
  }

  /**
    A lost connection tells every caller of a pending call that is not the close,
    and logs for every promised delivery, that the lane is not connected; the
    books of everybody else stay as they are.
   */
  lemma LossIsTold(s: State, t: nat)
    requires TablesOk(s) && !s.wire.closed
    ensures var u := ConnectionClosed(s);
      && u.calls.pending == map[] && u.calls.deferred == [] && u.calls.closeCall == s.calls.closeCall
      && At(u.books.replies, t) == At(s.books.replies, t) + Repeat(Refused(NOT_CONNECTED), |Holders(s.calls, t, false)|)
      && At(u.books.notes, t) == At(s.books.notes, t)
           + Repeat(Refused(NOT_CONNECTED), Occurs(TicketsOf(s.calls.deferred), t)) + Repeat(Refused(NOT_CONNECTED), |Holders(s.calls, t, true)|)
  {
    hide GivenUp, Settled;
    GivenUpSays(s.books, s.calls.deferred, NOT_CONNECTED, t);
    var c, b := s.calls.(deferred := []), GivenUp(s.books, s.calls.deferred, NOT_CONNECTED);
    SettledAt(c, b.replies, NOT_CONNECTED, false, t);
    SettledAt(c, b.notes, NOT_CONNECTED, true, t);
    SameHolders(s.calls, c, t);
  }

  lemma SameHolders(c: Calls, d: Calls, t: nat)
    requires d.pending == c.pending && d.closeCall == c.closeCall
    ensures Holders(d, t, false) == Holders(c, t, false) && Holders(d, t, true) == Holders(c, t, true)
  {
  }

  /** A close that is begun gives up every promised delivery as busy, and answers nobody. */
  lemma CloseGivesUpTheQueue(e: Env, s: State, r: Request, t: nat)
    requires TablesOk(s)
    ensures var u := BeginClose(e, s, r);
      && u.calls.closeCall == Some(r) && u.calls.deferred == [] && u.books.replies == s.books.replies
      && At(u.books.notes, t) == At(s.books.notes, t) + Repeat(Refused(BUSY), Occurs(TicketsOf(s.calls.deferred), t))
      && u.clock.closeTimer == Some(s.clock.now + 10_000) && !u.clock.armed
  {
    hide GivenUp, WriteDeferredClose;
    GivenUpSays(s.books, s.calls.deferred, BUSY, t);
    var s1 := SettleDeferred(s, BUSY);
    var m := s1.(calls := s1.calls.(closeCall := Some(r)), clock := s.clock.(armed := false, closeTimer := Some(s.clock.now + CLOSE_BOUND)));
    CloseGrows(e, m);
    CloseKeeps(e, m);
  }

  lemma CloseKeeps(e: Env, s: State)
    ensures var u := WriteDeferredClose(e, s); u.calls.closeCall == s.calls.closeCall && u.clock == s.clock
  {
  }
}
