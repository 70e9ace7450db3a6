/**
  Deliveries on a lane, seen from both ends: what the session's own history says
  about writing a delivery twice, carried over to the lane with its worker.
 */
module LaneDeliveries {
  import opened Common
  import opened RunIds
  import opened SessionModel
  import opened SessionLedger
  import opened SessionLoop
  import opened DeliveryOnce
  import opened WorkerModel
  import LaneLink
  import QueuedRuns

  /** The reply ticket a step hands to the session. */
  function TicketOf(step: LaneLink.Step): Option<nat> {
    match step
    case Daemon(Routed(r)) => Some(r.ticket)
    case Daemon(Retire(t)) => Some(t)
    case _ => None
  }

  /** Every request has a reply channel of its own. */
  predicate OwnTickets(steps: seq<LaneLink.Step>) {
    forall i, j :: 0 <= i < j < |steps| && TicketOf(steps[i]).Some? ==> TicketOf(steps[i]) != TicketOf(steps[j])
  }

  function Lane(e: Env, identity: nat, steps: seq<LaneLink.Step>): LaneLink.System {
    LaneLink.Run(e, LaneLink.Opened(identity), steps)
  }

  /** The tickets taken and the calls declined so far. */
  datatype Tale = Tale(seen: set<nat>, declined: set<nat>)

  function Told(e: Env, sys: LaneLink.System, step: LaneLink.Step, tale: Tale): Tale {
    match step
    case Daemon(event) =>
      if !LaneLink.External(event) then tale
      else if event.Routed? then tale.(seen := tale.seen + {event.request.ticket})
      else if event.Retire? && Handle(e, sys.d, event) != sys.d then tale.(seen := tale.seen + {event.ticket})
      else tale
    case DaemonReads =>
      if sys.ur < |sys.w.out| then tale.(declined := tale.declined + Declining(sys.d, LaneLink.EventOf(sys.w.out[sys.ur]))) else tale
    case _ => tale
  }

  function TaleOf(e: Env, identity: nat, steps: seq<LaneLink.Step>): Tale
    decreases |steps|
  {
    if steps == [] then Tale({}, {}) else
    var n := |steps| - 1;
    Told(e, Lane(e, identity, steps[..n]), steps[n], TaleOf(e, identity, steps[..n]))
  }

  ghost predicate Tells(s: State, tale: Tale) { StoryOk(Loop(s, [], tale.seen), Past(tale.declined, tale.seen)) && !s.entry.peer }

  lemma RoutedTells(e: Env, s: State, r: Request, tale: Tale)
    requires Tells(s, tale) && Fresh(r) && r.ticket !in tale.seen
    ensures Tells(Handle(e, s, Routed(r)), tale.(seen := tale.seen + {r.ticket}))
  {
    hide LoopOk, DeliverOk, Handle, Fresh;
    var l, p := Loop(s, [], tale.seen), Past(tale.declined, tale.seen);
    PostOk(l, r);
    var m := Loop(s, [r], tale.seen + {r.ticket});
    assert l.inbox + [r] == m.inbox;
    TakeDelivers(e, m, p);
    assert m.inbox[1..] == [];
    PeerKept(e, s, Routed(r));
  }

  lemma OwnTells(e: Env, s: State, event: Event, tale: Tale)
    requires Tells(s, tale) && !event.Routed? && (event.Retire? ==> event.ticket !in tale.seen)
    ensures var u := Handle(e, s, event);
      Tells(u, Tale(if event.Retire? && u != s then tale.seen + {event.ticket} else tale.seen, tale.declined + Declining(s, event)))
  {
    hide StoryOk, Handle;
    var l, p := Loop(s, [], tale.seen), Past(tale.declined, tale.seen);
    ActDelivers(e, l, Own(event), p);
    PeerKept(e, s, event);
    var more := Act(e, l, Own(event)).seen;
    assert tale.seen + (more - tale.seen) == more;
  }

  lemma {:induction false} SeenBefore(e: Env, identity: nat, steps: seq<LaneLink.Step>, t: nat)
    requires t in TaleOf(e, identity, steps).seen
    ensures exists i :: 0 <= i < |steps| && TicketOf(steps[i]) == Some(t)
    decreases |steps|
  {
    hide Lane, Handle;
    if steps != [] {
      var n := |steps| - 1;
      if TicketOf(steps[n]) != Some(t) {
        SeenBefore(e, identity, steps[..n], t);
        var i :| 0 <= i < n && TicketOf(steps[..n][i]) == Some(t);
        assert steps[i] == steps[..n][i];
      }
    }
  }

  lemma StartTells(identity: nat)
    ensures Tells(LaneLink.Opened(identity).d, Tale({}, {}))
  {
    StartOk(identity, false, false);
    assert SessionLoop.Begun(identity, false, false) == Loop(LaneLink.Opened(identity).d, [], {});
  }

  lemma {:induction false} LaneTells(e: Env, identity: nat, steps: seq<LaneLink.Step>)
    requires OwnTickets(steps)
    ensures Tells(Lane(e, identity, steps).d, TaleOf(e, identity, steps))
    decreases |steps|
  {
    hide Tells, Handle, Fresh, Declining, Receive, Advance, Enabled;
    if steps == [] {
      StartTells(identity);
    } else {
      var n := |steps| - 1;
      assert OwnTickets(steps[..n]);
      LaneTells(e, identity, steps[..n]);
      var sys, tale := Lane(e, identity, steps[..n]), TaleOf(e, identity, steps[..n]);
      if TicketOf(steps[n]).Some? && TicketOf(steps[n]).value in tale.seen {
        SeenBefore(e, identity, steps[..n], TicketOf(steps[n]).value);
      }
      match steps[n]
      case Daemon(event) =>
        if LaneLink.External(event) {
          if event.Routed? {
            RoutedTells(e, sys.d, event.request, tale);
          } else {
            OwnTells(e, sys.d, event, tale);
            NoDeclining(sys.d, event);
            assert tale.declined + {} == tale.declined;
          }
        }
      case DaemonReads => if sys.ur < |sys.w.out| { OwnTells(e, sys.d, LaneLink.EventOf(sys.w.out[sys.ur]), tale); }
      case _ =>
    }
  }

  lemma NoDeclining(s: State, event: Event)
    requires !event.Answered?
    ensures Declining(s, event) == {}
  {
  }

  // ---- what the worker sees ----

  /** The worker has answered call id with NotRunning. */
  predicate Declined(out: seq<Up>, id: nat) { Reply(id, Failed(NOT_RUNNING)) in out }

  lemma {:induction false} DeclinedBefore(e: Env, identity: nat, steps: seq<LaneLink.Step>, id: nat)
    requires id in TaleOf(e, identity, steps).declined
    ensures Declined(Lane(e, identity, steps).w.out, id)
    decreases |steps|
  {
    hide Handle;
    if steps != [] {
      var n := |steps| - 1;
      var sys := Lane(e, identity, steps[..n]);
      OutGrows(e, sys, steps[n]);
      if id in TaleOf(e, identity, steps[..n]).declined {
        DeclinedBefore(e, identity, steps[..n], id);
      } else {
        assert sys.w.out[sys.ur] == Reply(id, Failed(NOT_RUNNING));
      }
    }
  }

  lemma OutGrows(e: Env, sys: LaneLink.System, step: LaneLink.Step)
    ensures sys.w.out <= LaneLink.Next(e, sys, step).w.out
    ensures forall u :: u in sys.w.out ==> u in LaneLink.Next(e, sys, step).w.out
  {
    hide Handle;
  }

  /**
    Whatever the worker does, a delivery is written twice only after the worker
    has answered the first write, which carried no run, with NotRunning.
   */
  lemma WrittenTwiceIsDeclined(e: Env, identity: nat, steps: seq<LaneLink.Step>, t: nat, i: nat, j: nat)
    requires OwnTickets(steps)
    requires var sent := Lane(e, identity, steps).d.wire.sent; i < j < |sent| && Delivers(sent[i], t) && Delivers(sent[j], t)
    ensures var sys := Lane(e, identity, steps);
      && sys.d.wire.sent[i].request.run.None? && sys.d.wire.sent[j].request.run.Some?
      && Declined(sys.w.out, sys.d.wire.sent[i].id)
  {
    hide Lane, TaleOf, LoopOk, Declined;
    LaneTells(e, identity, steps);
    DeclinedBefore(e, identity, steps, Lane(e, identity, steps).d.wire.sent[i].id);
  }

  /** The writes of a delivery that its product may have submitted: those read and not answered NotRunning. */
  function Submitted(sys: LaneLink.System, t: nat): set<nat> {
    set i | 0 <= i < |sys.d.wire.sent| && i < sys.dr && Delivers(sys.d.wire.sent[i], t) && !Declined(sys.w.out, sys.d.wire.sent[i].id)
  }

  /** If NotRunning means that nothing was submitted, the body of a delivery is submitted at most once. */
  lemma SubmittedOnce(e: Env, identity: nat, steps: seq<LaneLink.Step>, t: nat)
    requires OwnTickets(steps)
    ensures |Submitted(Lane(e, identity, steps), t)| <= 1
  {
    hide Lane, Declined;
    var sys := Lane(e, identity, steps);
    var all := Submitted(sys, t);
    forall i, j | i in all && j in all
      ensures i == j
    {
      if i < j {
        WrittenTwiceIsDeclined(e, identity, steps, t, i, j);
      } else if j < i {
        WrittenTwiceIsDeclined(e, identity, steps, t, j, i);
      }
    }
    AtMostOne(all);
  }

  lemma AtMostOne(all: set<nat>)
    requires forall i, j :: i in all && j in all ==> i == j
    ensures |all| <= 1
  {
    if all != {} {
      var k :| k in all;
      assert all == {k};
    }
  }

  // ---- what becomes of a promise ----

  /** The writes of a delivery that start a run. */
  function Seeding(sent: seq<Down>, t: nat): set<nat> {
    set i | 0 <= i < |sent| && Delivers(sent[i], t) && sent[i].request.run.Some?
  }

  lemma {:induction false} QueueFrame(sent: seq<Down>, t: nat)
    requires t in QueuedRuns.FromQueue(sent)
    ensures exists i :: 0 <= i < |sent| && sent[i].Call? && sent[i].request.scheduled && sent[i].request.ticket == t
  {
    if sent != [] {
      var n := |sent| - 1;
      if !(sent[n].Call? && sent[n].request.scheduled && sent[n].request.ticket == t) {
        QueueFrame(sent[..n], t);
        var i :| 0 <= i < n && sent[..n][i].Call? && sent[..n][i].request.scheduled && sent[..n][i].request.ticket == t;
        assert sent[i] == sent[..n][i];
      }
    }
  }

  lemma {:induction false} StartedIsBegun(tickets: seq<nat>, fates: seq<QueuedRuns.Fate>, k: nat)
    requires k < |tickets| == |fates| && fates[k] == QueuedRuns.Started
    ensures tickets[k] in QueuedRuns.Begun(tickets, fates)
  {
    var n := |tickets| - 1;
    if k < n {
      StartedIsBegun(tickets[..n], fates[..n], k);
    }
  }

  /**
    In every interleaving, a delivery that was answered queued_for_next_turn and
    has left the queue is written exactly once as the start of a run, unless its
    own body fits no frame, the lane is closing, or its wire is lost. Never is it
    written twice as the start of a run, and never refused as busy before a close.
   */
  lemma PromisedDeliveryRunsOnce(e: Env, identity: nat, steps: seq<LaneLink.Step>, k: nat)
    requires LaneLink.AllHonest(steps) && OwnTickets(steps) && k < |Lane(e, identity, steps).d.books.popped|
    ensures var s, fates := Lane(e, identity, steps).d, QueuedRuns.Fates(e, LaneLink.Opened(identity), steps);
      var t := s.books.popped[k];
      && |Seeding(s.wire.sent, t)| <= 1 && k < |fates|
      && (match fates[k]
          case Started => |Seeding(s.wire.sent, t)| == 1
          case TooBig(call) => !e.fits(call)
          case Lost => s.wire.cut
          case GivenBack => s.calls.closeCall.Some?)
      && (Refused(BUSY) in At(s.books.notes, t) ==> s.calls.closeCall.Some?)
  {
    QueuedRuns.PromisesAreKept(e, identity, steps);
    var s, fates := Lane(e, identity, steps).d, QueuedRuns.Fates(e, LaneLink.Opened(identity), steps);
    SeedsOnce(e, identity, steps, s.books.popped[k]);
    hide Lane, LaneLink.Run, QueuedRuns.Fates, QueuedRuns.FromQueue, QueuedRuns.Begun;
    if fates[k] == QueuedRuns.Started {
      StartedIsBegun(s.books.popped, fates, k);
      QueueFrame(s.wire.sent, s.books.popped[k]);
      var i :| 0 <= i < |s.wire.sent| && s.wire.sent[i].Call? && s.wire.sent[i].request.scheduled && s.wire.sent[i].request.ticket == s.books.popped[k];
      assert i in Seeding(s.wire.sent, s.books.popped[k]);
    }
  }

  lemma SeedsOnce(e: Env, identity: nat, steps: seq<LaneLink.Step>, t: nat)
    requires OwnTickets(steps)
    ensures |Seeding(Lane(e, identity, steps).d.wire.sent, t)| <= 1
  {
    hide Lane, Declined;
    var all := Seeding(Lane(e, identity, steps).d.wire.sent, t);
    forall i, j | i in all && j in all
      ensures i == j
    {
      if i < j {
        WrittenTwiceIsDeclined(e, identity, steps, t, i, j);
      } else if j < i {
        WrittenTwiceIsDeclined(e, identity, steps, t, j, i);
      }
    }
    AtMostOne(all);
  }
}
