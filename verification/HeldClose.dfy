/**
  A caller's requests and the order of its answers: a close that succeeds while
  the same caller still waits for a blocking run of the same target is held back
  until that run is answered.
 */
module HeldClose {
  import opened Common

  datatype Kind = TurnRun | Close | Other

  /** A lane of this host, a lane of another host, or nothing a close could be matched with. */
  datatype Target = Here(entry: nat) | There(id: nat) | Nowhere

  datatype Pending = Pending(kind: Kind, target: Target, held: bool)

  /** An answer, and whether a run of the same target was still unanswered when it was written. */
  datatype Answer = Answer(id: nat, kind: Kind, target: Target, ok: bool, waiting: bool)

  datatype State = State(requests: map<nat, Pending>, answers: seq<Answer>)

  predicate Matches(a: Target, b: Target) { a == b && a != Nowhere }

  predicate WaitsFor(requests: map<nat, Pending>, id: nat, t: Target) {
    id in requests && requests[id].kind == TurnRun && Matches(requests[id].target, t)
  }

  predicate RunPending(requests: map<nat, Pending>, t: Target) { exists id :: id in requests && WaitsFor(requests, id, t) }

  /** Somebody still waits for a run of this lane. */
  predicate Unanswered(requests: map<nat, Pending>, t: Target) {
    t != Nowhere && exists k :: k in requests && requests[k].kind == TurnRun && requests[k].target == t
  }

  lemma WaitingMeans(requests: map<nat, Pending>, t: Target)
    ensures Unanswered(requests, t) <==> RunPending(requests, t)
  {
    if Unanswered(requests, t) {
      var k :| k in requests && requests[k].kind == TurnRun && requests[k].target == t;
      assert WaitsFor(requests, k, t);
    }
  }

  predicate HeldFor(requests: map<nat, Pending>, id: nat, t: Target) {
    id in requests && requests[id].kind == Close && requests[id].held && Matches(requests[id].target, t)
  }

  /** The closes held for t. */
  function Held(requests: map<nat, Pending>, t: Target): set<nat> { set id | id in requests && HeldFor(requests, id, t) }

  function Open(s: State, id: nat, kind: Kind, t: Target): State { s.(requests := s.requests[id := Pending(kind, t, false)]) }

  /** Answer request id and forget it. */
  function Answered(s: State, id: nat, ok: bool): State
    requires id in s.requests
  {
    var p, rest := s.requests[id], s.requests - {id};
    State(rest, s.answers + [Answer(id, p.kind, p.target, ok, Unanswered(rest, p.target))])
  }

  /** An answered run also releases one close that was held for its target, if no other run is left; pick is the map's choice. */
  function Finish(s: State, id: nat, ok: bool, pick: nat): State
    requires id in s.requests
  {
    var p, u := s.requests[id], Answered(s, id, ok);
    if p.kind != TurnRun || RunPending(u.requests, p.target) || pick !in Held(u.requests, p.target) then u
    else Answered(u, pick, true)
  }

  /** The reply to request id arrives. */
  function Consume(s: State, id: nat, ok: bool, pick: nat): State {
    if id !in s.requests then s
    else if s.requests[id].kind == Close && ok && RunPending(s.requests, s.requests[id].target)
    then s.(requests := s.requests[id := s.requests[id].(held := true)])
    else Finish(s, id, ok, pick)
  }

  datatype Op = OpenOp(id: nat, kind: Kind, target: Target) | ConsumeOp(id: nat, ok: bool, pick: nat)

  function Step(s: State, op: Op): State {
    match op
    case OpenOp(id, kind, t) => if id in s.requests then s else Open(s, id, kind, t)
    case ConsumeOp(id, ok, pick) => Consume(s, id, ok, pick)
  }

  function Run(s: State, ops: seq<Op>): State
    decreases |ops|
  {
    if ops == [] then s else Run(Step(s, ops[0]), ops[1..])
  }

  /** No successful close was answered while a run of its target was waiting; only closes are held. */
  predicate Ordered(s: State) {
    && (forall i :: 0 <= i < |s.answers| && s.answers[i].kind == Close && s.answers[i].ok ==> !s.answers[i].waiting)
    && (forall id :: id in s.requests && s.requests[id].held ==> s.requests[id].kind == Close)
  }

  lemma AnsweredOk(s: State, id: nat, ok: bool)
    requires Ordered(s) && id in s.requests
    requires s.requests[id].kind == Close && ok ==> !RunPending(s.requests - {id}, s.requests[id].target)
    ensures Ordered(Answered(s, id, ok))
  {
    WaitingMeans(s.requests - {id}, s.requests[id].target);
  }

  /** Removing a close leaves the waiting runs alone. */
  lemma CloseIsNoRun(requests: map<nat, Pending>, id: nat, t: Target)
    requires id in requests && requests[id].kind != TurnRun
    ensures RunPending(requests - {id}, t) <==> RunPending(requests, t)
  {
    if RunPending(requests, t) {
      var k :| k in requests && WaitsFor(requests, k, t);
      assert WaitsFor(requests - {id}, k, t);
    }
    if RunPending(requests - {id}, t) {
      var k :| k in requests - {id} && WaitsFor(requests - {id}, k, t);
      assert WaitsFor(requests, k, t);
    }
  }

  lemma FinishOk(s: State, id: nat, ok: bool, pick: nat)
    requires Ordered(s) && id in s.requests
    requires s.requests[id].kind == Close && ok ==> !RunPending(s.requests, s.requests[id].target)
    ensures Ordered(Finish(s, id, ok, pick))
  {
    var p := s.requests[id];
    if p.kind == Close {
      CloseIsNoRun(s.requests, id, p.target);
    }
    AnsweredOk(s, id, ok);
    var u := Answered(s, id, ok);
    if p.kind == TurnRun && !RunPending(u.requests, p.target) && pick in Held(u.requests, p.target) {
      CloseIsNoRun(u.requests, pick, p.target);
      AnsweredOk(u, pick, true);
    }
  }

  lemma {:induction false} RunOk(s: State, ops: seq<Op>)
    requires Ordered(s)
    ensures Ordered(Run(s, ops))
    decreases |ops|
  {
    if ops != [] {
      var op := ops[0];
      hide RunPending, Held;
      if op.ConsumeOp? && op.id in s.requests
         && !(s.requests[op.id].kind == Close && op.ok && RunPending(s.requests, s.requests[op.id].target)) {
        FinishOk(s, op.id, op.ok, op.pick);
      }
      RunOk(Step(s, ops[0]), ops[1..]);
    }
  }

  /** In every run a caller is never told that a close succeeded while it has an unanswered run of the same target. */
  lemma {:induction false} CloseAnswersAfterRuns(ops: seq<Op>, i: nat)
    requires i < |Run(State(map[], []), ops).answers|
    ensures var a := Run(State(map[], []), ops).answers[i]; a.kind == Close && a.ok ==> !a.waiting
  {
    hide Run;
    RunOk(State(map[], []), ops);
  }

  /** A close of this lane that is held back. */
  predicate Waits(requests: map<nat, Pending>, k: nat, t: Target) {
    k in requests && requests[k].kind == Close && requests[k].held && requests[k].target == t && t != Nowhere
  }

  /**
    What a reply does. A successful close is held back if its caller still waits
    for a run of the same lane, and then nothing is answered. Any other reply is
    passed on as it is, and its request forgotten; and if it answers the last run
    of a lane, one close held back for that lane is answered too, as the success
    it was.
   */
  lemma ReplyIsPassedOn(s: State, id: nat, ok: bool, pick: nat)
    requires id in s.requests
    ensures var p, u := s.requests[id], Consume(s, id, ok, pick);
      if p.kind == Close && ok && Unanswered(s.requests, p.target) then u == s.(requests := s.requests[id := p.(held := true)])
      else if p.kind == TurnRun && !Unanswered(s.requests - {id}, p.target) && Waits(s.requests, pick, p.target) then
        && u.requests == s.requests - {id} - {pick} && |u.answers| == |s.answers| + 2 && u.answers[..|s.answers|] == s.answers
        && u.answers[|s.answers|].id == id && u.answers[|s.answers|].ok == ok
        && u.answers[|s.answers| + 1].id == pick && u.answers[|s.answers| + 1].ok
      else
        && u.requests == s.requests - {id} && |u.answers| == |s.answers| + 1 && u.answers[..|s.answers|] == s.answers
        && u.answers[|s.answers|].id == id && u.answers[|s.answers|].ok == ok
  {
    var p := s.requests[id];
    WaitingMeans(s.requests, p.target);
    WaitingMeans(s.requests - {id}, p.target);
    assert Waits(s.requests, pick, p.target) && p.kind == TurnRun <==> p.kind == TurnRun && pick in Held(s.requests - {id}, p.target);
    hide RunPending, Unanswered;
  }

  /**
    The last run of a target is answered, and the map picks some held close if
    there is one: afterwards no close is held for that target if and only if at
    most one was.
   */
  lemma OneHeldCloseIsReleased(s: State, id: nat, ok: bool, pick: nat)
    requires id in s.requests && s.requests[id].kind == TurnRun && !RunPending(s.requests - {id}, s.requests[id].target)
    requires Held(s.requests, s.requests[id].target) != {} ==> pick in Held(s.requests, s.requests[id].target)
    ensures Held(Finish(s, id, ok, pick).requests, s.requests[id].target) == {} <==> |Held(s.requests, s.requests[id].target)| <= 1
  {
    var t := s.requests[id].target;
    var u := Answered(s, id, ok);
    assert forall k: nat :: HeldFor(u.requests, k, t) <==> HeldFor(s.requests, k, t);
    assert Held(u.requests, t) == Held(s.requests, t);
    if pick in Held(u.requests, t) {
      var v := Answered(u, pick, true);
      assert forall k: nat :: HeldFor(v.requests, k, t) <==> HeldFor(u.requests, k, t) && k != pick;
      assert Held(v.requests, t) == Held(u.requests, t) - {pick};
      assert |Held(v.requests, t)| == |Held(u.requests, t)| - 1;
    }
  }

  /** Two closes held behind one run: one of them is never released by that run's answer. */
  lemma SecondHeldCloseStays()
    ensures var ops := [OpenOp(1, TurnRun, Here(7)), OpenOp(2, Close, Here(7)), OpenOp(3, Close, Here(7)),
                        ConsumeOp(2, true, 0), ConsumeOp(3, true, 0), ConsumeOp(1, true, 2)];
      3 in Run(State(map[], []), ops).requests && Run(State(map[], []), ops).requests[3].held
      && !RunPending(Run(State(map[], []), ops).requests, Here(7))
  {
    var t := Here(7);
    var s1 := State(map[1 := Pending(TurnRun, t, false)], []);
    var s3 := State(map[1 := Pending(TurnRun, t, false), 2 := Pending(Close, t, false), 3 := Pending(Close, t, false)], []);
    assert WaitsFor(s3.requests, 1, t);
    var s4 := Step(s3, ConsumeOp(2, true, 0));
    assert s4.requests[2].held && WaitsFor(s4.requests, 1, t);
    var s5 := Step(s4, ConsumeOp(3, true, 0));
    assert s5.requests[3].held && HeldFor(s5.requests, 2, t);
    var s6 := Step(s5, ConsumeOp(1, true, 2));
    var m := Answered(s5, 1, true);
    assert HeldFor(m.requests, 2, t);
    assert s6 == Answered(m, 2, true);
    SixSteps(State(map[], []), s3, s6);
  }

  lemma SixSteps(s: State, s3: State, s6: State)
    requires s == State(map[], [])
    requires s3 == State(map[1 := Pending(TurnRun, Here(7), false), 2 := Pending(Close, Here(7), false), 3 := Pending(Close, Here(7), false)], [])
    requires s6 == Step(Step(Step(s3, ConsumeOp(2, true, 0)), ConsumeOp(3, true, 0)), ConsumeOp(1, true, 2))
    ensures Run(s, [OpenOp(1, TurnRun, Here(7)), OpenOp(2, Close, Here(7)), OpenOp(3, Close, Here(7)),
                    ConsumeOp(2, true, 0), ConsumeOp(3, true, 0), ConsumeOp(1, true, 2)]) == s6
  {
    hide Consume;
    var a := [ConsumeOp(1, true, 2)];
    var b := [ConsumeOp(3, true, 0)] + a;
    var c := [ConsumeOp(2, true, 0)] + b;
    var d := [OpenOp(3, Close, Here(7))] + c;
    var e := [OpenOp(2, Close, Here(7))] + d;
    var f := [OpenOp(1, TurnRun, Here(7))] + e;
    assert f[1..] == e && e[1..] == d && d[1..] == c && c[1..] == b && b[1..] == a && a[1..] == [];
    var s5 := Step(Step(s3, ConsumeOp(2, true, 0)), ConsumeOp(3, true, 0));
    assert Run(s5, a) == s6;
    assert Run(s3, c) == s6;
    assert f == [OpenOp(1, TurnRun, Here(7)), OpenOp(2, Close, Here(7)), OpenOp(3, Close, Here(7)),
                 ConsumeOp(2, true, 0), ConsumeOp(3, true, 0), ConsumeOp(1, true, 2)];
  }

  // ---- the session's request table ----

  class Requests {
    var requests: map<nat, Pending>
    ghost var answers: seq<Answer>

    ghost function Snapshot(): State
      reads this
    {
      State(requests, answers)
    }

    constructor ()
      ensures Snapshot() == State(map[], [])
    {
      requests, answers := map[], [];
    }

    method StillRunning(t: Target) returns (found: bool)
      ensures found == RunPending(requests, t)
    {
      var left := requests.Keys;
      while left != {}
        invariant left <= requests.Keys && forall id :: id in requests && id !in left ==> !WaitsFor(requests, id, t)
        decreases |left|
      {
        var id :| id in left;
        if WaitsFor(requests, id, t) {
          return true;
        }
        left := left - {id};
      }
      return false;
    }

    method Reply(id: nat, ok: bool)
      requires id in requests
      modifies this
      ensures Snapshot() == Answered(old(Snapshot()), id, ok)
    {
      answers := answers + [Answer(id, requests[id].kind, requests[id].target, ok, Unanswered(requests - {id}, requests[id].target))];
      requests := requests - {id};
    }

    /** Answer a request; after a run, look for one held close in whatever order the map yields them. */
    method FinishRequest(id: nat, ok: bool) returns (ghost pick: nat)
      requires id in requests
      modifies this
      ensures Snapshot() == Finish(old(Snapshot()), id, ok, pick)
      ensures var t := old(requests)[id].target; Held(old(requests) - {id}, t) != {} ==> pick in Held(old(requests) - {id}, t)
    {
      hide RunPending;
      var p := requests[id];
      pick := 0;
      ghost var rest := requests - {id};
      pick := if Held(rest, p.target) != {} then (var k :| k in Held(rest, p.target); k) else 0;
      Reply(id, ok);
      var waiting := StillRunning(p.target);
      if p.kind != TurnRun || waiting {
        return;
      }
      var left := requests.Keys;
      while left != {}
        invariant left <= requests.Keys && requests == rest && Snapshot() == Answered(old(Snapshot()), id, ok)
        invariant forall k :: k in requests && k !in left ==> !HeldFor(requests, k, p.target)
        decreases |left|
      {
        var k :| k in left;
        if HeldFor(requests, k, p.target) {
          pick := k;
          Reply(k, true);
          return;
        }
        left := left - {k};
      }
    }

    method ConsumeReply(id: nat, ok: bool) returns (ghost pick: nat)
      modifies this
      ensures Snapshot() == Consume(old(Snapshot()), id, ok, pick)
      ensures id in old(requests) && id !in requests ==>
        var t := old(requests)[id].target; Held(old(requests) - {id}, t) != {} ==> pick in Held(old(requests) - {id}, t)
    {
      hide RunPending;
      pick := 0;
      if id !in requests {
        return;
      }
      var waiting := StillRunning(requests[id].target);
      if requests[id].kind == Close && ok && waiting {
        requests := requests[id := requests[id].(held := true)];
        return;
      }
      pick := FinishRequest(id, ok);
    }
  }
}
