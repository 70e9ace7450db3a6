/**
  Call correlation on one connection: callers, the reader and whoever closes the
  connection compete for the table of pending calls. Each step is one critical
  section of the source, or what a thread does with what it took out of one.
 */
module Rpc {
  import opened Common

  const MAX_REQUEST_ID: nat := 0x1F_FFFF_FFFF_FFFF

  /** A pending call: its done channel, and whether its caller gave up on it. */
  datatype Entry = Entry(done: nat, drained: bool)

  datatype Why = Unencodable | NotOpen | Exhausted | Busy

  /** What a caller is told: why its call was not begun, that it was not sent or lost, or what the response to request id was. */
  datatype Outcome = Refused(why: Why) | Unsent | Lost | ErrorOf(id: nat) | GarbledOf(id: nat) | UnwantedOf(id: nat) | ValueOf(id: nat)

  /** A response being read: its number and the call it belongs to. */
  datatype Reading = Reading(id: nat, entry: Entry)

  /**
    `writing` is the call whose writer holds the write lock, `reader` the call
    the reader took out of the table, `owed` the calls the closer took. `done`
    is what was sent on each channel; `cancelled` are the calls that returned
    their context's error and `observed` those whose target or observer was used.
   */
  datatype State = State(next: nat, closed: bool, pending: map<nat, Entry>, writing: Option<(nat, nat)>,
                         reader: Option<Reading>, owed: set<nat>, done: map<nat, seq<Outcome>>, begun: set<nat>,
                         written: seq<nat>, cancelled: set<nat>, observed: set<nat>)

  function New(): State { State(0, false, map[], None, None, {}, map[], {}, [], {}, {}) }

  function At(m: map<nat, seq<Outcome>>, k: nat): seq<Outcome> { if k in m then m[k] else [] }

  function Count(m: map<nat, seq<Outcome>>, k: nat): nat { |At(m, k)| }

  function Signal(s: State, k: nat, o: Outcome): State { s.(done := s.done[k := At(s.done, k) + [o]]) }

  /** A call is admitted under both locks, or told at once why not. */
  function Begun(s: State, k: nat, encodable: bool): State {
    var s1 := s.(begun := s.begun + {k});
    if !encodable then Signal(s1, k, Refused(Unencodable))
    else if s.closed then Signal(s1, k, Refused(NotOpen))
    else if s.next == MAX_REQUEST_ID then Signal(s1, k, Refused(Exhausted))
    else if |s.pending| >= MAX_OPERATIONS then Signal(s1, k, Refused(Busy))
    else s1.(next := s.next + 1, pending := s.pending[s.next + 1 := Entry(k, false)], writing := Some((s.next + 1, k)))
  }

  function Sent(s: State): State {
    if s.writing.None? then s else s.(writing := None, written := s.written + [s.writing.value.0])
  }

  /** The first closer takes every pending call. */
  function Closed(s: State): State {
    if s.closed then s else
    s.(closed := true, pending := map[], owed := s.owed + (set id | id in s.pending :: s.pending[id].done))
  }

  function Notify(s: State, k: nat): State { if k in s.owed then Signal(s.(owed := s.owed - {k}), k, Lost) else s }

  predicate Owns(s: State, id: nat, k: nat) { id in s.pending && s.pending[id].done == k }

  function Dropped(s: State, id: nat, k: nat): State {
    if Owns(s, id, k) then Signal(s.(pending := s.pending - {id}), k, Unsent) else s
  }

  /** The frame could not be encoded or written; a failed write also closes the connection. */
  function SendFailed(s: State, broken: bool): State {
    if s.writing.None? then s else
    var s1 := if broken then Closed(s) else s;
    Dropped(s1.(writing := None), s.writing.value.0, s.writing.value.1)
  }

  function Respond(s: State, id: nat): State {
    if s.reader.Some? then s
    else if id !in s.pending then Closed(s)
    else s.(reader := Some(Reading(id, s.pending[id])), pending := s.pending - {id})
  }

  datatype Reply = ErrorReply | Invalid | Valid

  /** What a response says to its caller; an observer, if one still listens, may refuse a valid one. */
  function Verdict(id: nat, reply: Reply, refused: bool): Outcome {
    match reply
    case ErrorReply => ErrorOf(id)
    case Invalid => GarbledOf(id)
    case Valid => if refused then UnwantedOf(id) else ValueOf(id)
  }

  /** The reader decodes what it took, runs the observer if the caller still wants it, and signals. */
  function Finish(s: State, reply: Reply, refused: bool): State {
    if s.reader.None? then s else
    var p := s.reader.value.entry;
    var s1 := s.(reader := None, observed := if reply != ErrorReply && !p.drained then s.observed + {p.done} else s.observed);
    var s2 := if reply == Invalid || (reply == Valid && !p.drained && refused) then Closed(s1) else s1;
    Signal(s2, p.done, Verdict(s.reader.value.id, reply, !p.drained && refused))
  }

  /** The caller's context ended: it may return only if the call is still in the table. */
  function Abandoned(s: State, id: nat, k: nat): State {
    if Owns(s, id, k) then s.(pending := s.pending[id := Entry(k, true)], cancelled := s.cancelled + {k}) else s
  }

  datatype Op =
    | BeginOp(k: nat, encodable: bool) | SentOp | SendFailedOp(broken: bool) | RespondOp(id: nat)
    | FinishOp(reply: Reply, refused: bool) | AbandonOp(id: nat, k: nat) | CloseOp | NotifyOp(k: nat)

  /** Channels are fresh, and one writer holds the write lock. */
  predicate Enabled(s: State, op: Op) { op.BeginOp? ==> op.k !in s.begun && s.writing.None? }

  function Step(s: State, op: Op): State
    requires Enabled(s, op)
  {
    match op
    case BeginOp(k, encodable) => Begun(s, k, encodable)
    case SentOp => Sent(s)
    case SendFailedOp(broken) => SendFailed(s, broken)
    case RespondOp(id) => Respond(s, id)
    case FinishOp(reply, refused) => Finish(s, reply, refused)
    case AbandonOp(id, k) => Abandoned(s, id, k)
    case CloseOp => Closed(s)
    case NotifyOp(k) => Notify(s, k)
  }

  predicate Possible(s: State, ops: seq<Op>)
    decreases |ops|
  {
    ops == [] || (Enabled(s, ops[0]) && Possible(Step(s, ops[0]), ops[1..]))
  }

  function Run(s: State, ops: seq<Op>): State
    requires Possible(s, ops)
    decreases |ops|
  {
    if ops == [] then s else Run(Step(s, ops[0]), ops[1..])
  }

  // ---- every call is in one place ----

  ghost predicate Pending(s: State, k: nat) { exists id :: Owns(s, id, k) }

  predicate BeingRead(s: State, k: nat) { s.reader.Some? && s.reader.value.entry.done == k }

  /** The places a call can be in are exclusive, and a call begun is in one of them. */
  ghost predicate Placed(s: State, k: nat) {
    && Count(s.done, k) <= 1
    && (k in s.begun <==> Count(s.done, k) == 1 || Pending(s, k) || BeingRead(s, k) || k in s.owed)
    && (Count(s.done, k) == 1 ==> !Pending(s, k) && !BeingRead(s, k) && k !in s.owed)
    && (Pending(s, k) ==> !BeingRead(s, k) && k !in s.owed)
    && (BeingRead(s, k) ==> k !in s.owed)
  }

  predicate Distinct(s: State) {
    forall i, j :: i in s.pending && j in s.pending && i != j ==> s.pending[i].done != s.pending[j].done
  }

  predicate Rising(ids: seq<nat>, next: nat) {
    && (forall i :: 0 <= i < |ids| ==> 1 <= ids[i] <= next)
    && (forall i, j :: 0 <= i < j < |ids| ==> ids[i] < ids[j])
  }

  ghost predicate Quiet(s: State) {
    && (forall id :: id in s.pending && s.pending[id].done in s.cancelled ==> s.pending[id].drained)
    && (s.reader.Some? && s.reader.value.entry.done in s.cancelled ==> s.reader.value.entry.drained)
    && (forall k :: k in s.observed ==> Count(s.done, k) == 1)
    && (s.cancelled !! s.observed) && s.cancelled <= s.begun
  }

  ghost predicate Ok(s: State) {
    && (forall k :: Placed(s, k)) && Distinct(s) && Quiet(s)
    && |s.pending| <= MAX_OPERATIONS && (forall id :: id in s.pending ==> 1 <= id <= s.next)
    && (s.closed ==> s.pending == map[])
    && Rising(s.written, s.next) && s.next <= MAX_REQUEST_ID
    && (s.writing.Some? ==> s.writing.value.0 == s.next >= 1 && s.writing.value.1 in s.begun
                            && forall i :: 0 <= i < |s.written| ==> s.written[i] < s.next)
  }

  lemma RefusedOk(s: State, k: nat, o: Outcome)
    requires Ok(s) && k !in s.begun
    ensures Ok(Signal(s.(begun := s.begun + {k}), k, o))
  {
    var u := Signal(s.(begun := s.begun + {k}), k, o);
    assert Placed(s, k);
    assert forall j :: Pending(u, j) <==> Pending(s, j) by {
      assert forall j, id :: Owns(u, id, j) <==> Owns(s, id, j);
    }
    forall j ensures Placed(u, j) {
      assert Placed(s, j);
    }
  }

  lemma AdmittedPlaces(s: State, u: State, k: nat)
    requires (forall id :: id in s.pending ==> id <= s.next) && (forall id :: id in s.pending ==> s.pending[id].done != k)
    requires u.pending == s.pending[s.next + 1 := Entry(k, false)] && Distinct(s)
    ensures (forall j :: Pending(u, j) <==> Pending(s, j) || j == k) && Distinct(u)
  {
    assert Owns(u, s.next + 1, k);
    forall j ensures Pending(u, j) <==> Pending(s, j) || j == k {
      if Pending(s, j) {
        var id :| Owns(s, id, j);
        assert Owns(u, id, j);
      }
      if Pending(u, j) && j != k {
        var id :| Owns(u, id, j);
        assert Owns(s, id, j);
      }
    }
  }

  lemma AdmittedPlaced(s: State, u: State, k: nat, j: nat)
    requires Placed(s, k) && Placed(s, j) && k !in s.begun && (Pending(u, j) <==> Pending(s, j) || j == k)
    requires u.begun == s.begun + {k} && u.done == s.done && u.reader == s.reader && u.owed == s.owed
    ensures Placed(u, j)
  {
    hide Pending;
  }

  lemma AdmittedQuiet(s: State, u: State, k: nat)
    requires Quiet(s) && k !in s.begun && u.pending == s.pending[s.next + 1 := Entry(k, false)]
    requires u.begun == s.begun + {k} && u.done == s.done && u.reader == s.reader
    requires u.cancelled == s.cancelled && u.observed == s.observed
    ensures Quiet(u)
  {
  }

  lemma BeginOk(s: State, k: nat, encodable: bool)
    requires Ok(s) && k !in s.begun && s.writing.None?
    ensures Ok(Begun(s, k, encodable))
  {
    hide Placed, Distinct, Quiet, Pending;
    var u := Begun(s, k, encodable);
    if !encodable || s.closed || s.next == MAX_REQUEST_ID || |s.pending| >= MAX_OPERATIONS {
      RefusedOk(s, k, Refused(if !encodable then Unencodable else if s.closed then NotOpen else if s.next == MAX_REQUEST_ID then Exhausted else Busy));
    } else {
      NotPending(s, k);
      AdmittedPlaces(s, u, k);
      AdmittedQuiet(s, u, k);
      forall j ensures Placed(u, j) {
        assert Placed(s, k) && Placed(s, j);
        AdmittedPlaced(s, u, k, j);
      }
    }
  }

  lemma NotPending(s: State, k: nat)
    requires Placed(s, k) && k !in s.begun
    ensures forall id :: id in s.pending ==> s.pending[id].done != k
  {
    forall id | id in s.pending ensures s.pending[id].done != k {
      assert Owns(s, id, s.pending[id].done);
    }
  }

  /** Taking call id out of the table leaves every other call where it was. */
  lemma TakenOut(s: State, id: nat)
    requires Ok(s) && id in s.pending
    ensures var m := s.(pending := s.pending - {id});
      && (forall j :: Pending(m, j) <==> Pending(s, j) && j != s.pending[id].done)
      && Pending(s, s.pending[id].done) && |m.pending| <= |s.pending| && Distinct(m)
  {
    var m, k := s.(pending := s.pending - {id}), s.pending[id].done;
    assert Owns(s, id, k);
    forall j ensures Pending(m, j) <==> Pending(s, j) && j != k {
      if Pending(s, j) && j != k {
        var i :| Owns(s, i, j);
        assert Owns(m, i, j);
      }
      if Pending(m, j) {
        var i :| Owns(m, i, j);
        assert Owns(s, i, j) && i != id;
      }
    }
    assert m.pending.Keys == s.pending.Keys - {id};
    assert |m.pending.Keys| == |m.pending| && |s.pending.Keys| == |s.pending|;
  }

  lemma DropOk(s: State, id: nat, k: nat)
    requires Ok(s)
    ensures Ok(Dropped(s, id, k))
  {
    if Owns(s, id, k) {
      TakenOut(s, id);
      var u := Dropped(s, id, k);
      assert Placed(s, k);
      assert forall j :: Pending(u, j) <==> Pending(s.(pending := s.pending - {id}), j) by {
        assert forall j, i :: Owns(u, i, j) <==> Owns(s.(pending := s.pending - {id}), i, j);
      }
      forall j ensures Placed(u, j) {
        assert Placed(s, j);
      }
    }
  }

  lemma CloseOk(s: State)
    requires Ok(s)
    ensures Ok(Closed(s))
  {
    if !s.closed {
      var u := Closed(s);
      forall j ensures Placed(u, j) {
        assert Placed(s, j);
        assert !Pending(u, j);
        assert j in u.owed <==> j in s.owed || Pending(s, j) by {
          if Pending(s, j) {
            var id :| Owns(s, id, j);
          }
          if j in u.owed && j !in s.owed {
            var id :| id in s.pending && s.pending[id].done == j;
            assert Owns(s, id, j);
          }
        }
      }
    }
  }

  lemma NotifyOk(s: State, k: nat)
    requires Ok(s)
    ensures Ok(Notify(s, k))
  {
    if k in s.owed {
      var u := Notify(s, k);
      assert Placed(s, k);
      assert forall j :: Pending(u, j) <==> Pending(s, j) by {
        assert forall j, i :: Owns(u, i, j) <==> Owns(s, i, j);
      }
      forall j ensures Placed(u, j) {
        assert Placed(s, j);
      }
    }
  }

  lemma RespondOk(s: State, id: nat)
    requires Ok(s)
    ensures Ok(Respond(s, id))
  {
    if s.reader.None? {
      if id !in s.pending {
        CloseOk(s);
      } else {
        TakenOut(s, id);
        var u := Respond(s, id);
        assert Placed(s, s.pending[id].done);
        assert forall j :: Pending(u, j) <==> Pending(s.(pending := s.pending - {id}), j) by {
          assert forall j, i :: Owns(u, i, j) <==> Owns(s.(pending := s.pending - {id}), i, j);
        }
        forall j ensures Placed(u, j) {
          assert Placed(s, j);
        }
      }
    }
  }

  lemma HandedOver(s: State, p: Entry, touched: bool, o: Outcome)
    requires Ok(s) && s.reader.Some? && s.reader.value.entry == p && (touched ==> !p.drained)
    ensures Ok(Signal(s.(reader := None, observed := if touched then s.observed + {p.done} else s.observed), p.done, o))
  {
    var u := Signal(s.(reader := None, observed := if touched then s.observed + {p.done} else s.observed), p.done, o);
    assert Placed(s, p.done);
    assert forall j :: Pending(u, j) <==> Pending(s, j) by {
      assert forall j, i :: Owns(u, i, j) <==> Owns(s, i, j);
    }
    forall j ensures Placed(u, j) {
      assert Placed(s, j);
    }
  }

  /** The reader may close the connection while it still holds a call: that call is not in the table. */
  lemma FinishOk(s: State, reply: Reply, refused: bool)
    requires Ok(s)
    ensures Ok(Finish(s, reply, refused))
  {
    if s.reader.Some? {
      var p := s.reader.value.entry;
      var m := if reply == Invalid || (reply == Valid && !p.drained && refused) then Closed(s) else s;
      CloseOk(s);
      hide Ok;
      HandedOver(m, p, reply != ErrorReply && !p.drained, Verdict(s.reader.value.id, reply, !p.drained && refused));
    }
  }

  lemma AbandonOk(s: State, id: nat, k: nat)
    requires Ok(s)
    ensures Ok(Abandoned(s, id, k))
  {
    if Owns(s, id, k) {
      var u := Abandoned(s, id, k);
      assert Placed(s, k) && Pending(s, k);
      assert forall i :: i in s.pending && i != id ==> s.pending[i].done != k;
      assert forall j :: Pending(u, j) <==> Pending(s, j) by {
        assert forall j, i :: Owns(u, i, j) <==> Owns(s, i, j);
      }
      assert u.pending.Keys == s.pending.Keys;
      assert |u.pending.Keys| == |u.pending| && |s.pending.Keys| == |s.pending|;
      forall j ensures Placed(u, j) {
        assert Placed(s, j);
      }
    }
  }

  lemma SentOk(s: State)
    requires Ok(s)
    ensures Ok(Sent(s))
  {
    var u := Sent(s);
    assert forall j :: Pending(u, j) <==> Pending(s, j) by {
      assert forall j, i :: Owns(u, i, j) <==> Owns(s, i, j);
    }
    forall j ensures Placed(u, j) {
      assert Placed(s, j);
    }
  }

  lemma SendFailedOk(s: State, broken: bool)
    requires Ok(s)
    ensures Ok(SendFailed(s, broken))
  {
    if s.writing.Some? {
      CloseOk(s);
      var m := if broken then Closed(s) else s;
      var n := m.(writing := None);
      assert forall j :: Pending(n, j) <==> Pending(m, j) by {
        assert forall j, i :: Owns(n, i, j) <==> Owns(m, i, j);
      }
      forall j ensures Placed(n, j) {
        assert Placed(m, j);
      }
      DropOk(n, s.writing.value.0, s.writing.value.1);
    }
  }

  lemma StepOk(s: State, op: Op)
    requires Ok(s) && Enabled(s, op)
    ensures Ok(Step(s, op))
  {
    hide Ok;
    match op
    case BeginOp(k, encodable) => BeginOk(s, k, encodable);
    case SentOp => SentOk(s);
    case SendFailedOp(broken) => SendFailedOk(s, broken);
    case RespondOp(id) => RespondOk(s, id);
    case FinishOp(reply, refused) => FinishOk(s, reply, refused);
    case AbandonOp(id, k) => AbandonOk(s, id, k);
    case CloseOp => CloseOk(s);
    case NotifyOp(k) => NotifyOk(s, k);
  }

  lemma {:induction false} RunOk(s: State, ops: seq<Op>)
    requires Ok(s) && Possible(s, ops)
    ensures Ok(Run(s, ops))
    decreases |ops|
  {
    hide Ok, Step;
    if ops != [] {
      StepOk(s, ops[0]);
      RunOk(Step(s, ops[0]), ops[1..]);
    }
  }

  lemma StartOk(s: State)
    requires s == New()
    ensures Ok(s)
  {
    assert forall k :: !Pending(s, k);
  }

  /**
    In every interleaving of callers, reader and closer: no done channel gets two
    values, request identifiers are written in strictly increasing order, at most
    256 correlations exist, and a call that returned its context's error never
    has its observer run or its target written.
   */
  lemma {:induction false} CallSafety(ops: seq<Op>, k: nat)
    requires Possible(New(), ops)
    ensures var s := Run(New(), ops);
      && Count(s.done, k) <= 1 && (Count(s.done, k) == 1 ==> k in s.begun)
      && |s.pending| <= MAX_OPERATIONS
      && (forall i, j :: 0 <= i < j < |s.written| ==> s.written[i] < s.written[j])
      && !(k in s.cancelled && k in s.observed)
  {
    StartOk(New());
    hide Run, Possible, New;
    RunOk(New(), ops);
    assert Placed(Run(New(), ops), k);
  }

  /** Once the connection is closed and no thread holds a call, every call ever begun has been told exactly once. */
  lemma {:induction false} EveryCallIsTold(ops: seq<Op>, k: nat)
    requires Possible(New(), ops)
    requires var s := Run(New(), ops); s.closed && s.reader.None? && s.owed == {}
    ensures var s := Run(New(), ops); k in s.begun ==> Count(s.done, k) == 1
  {
    StartOk(New());
    hide Run, Possible, New;
    RunOk(New(), ops);
    var s := Run(New(), ops);
    assert Placed(s, k);
    assert !Pending(s, k);
  }

  // ---- a reply reaches the caller it answers ----

  /** The request identifiers that calls were given. */
  function Given(s: State, ops: seq<Op>, given: map<nat, nat>): map<nat, nat>
    requires Possible(s, ops)
    decreases |ops|
  {
    if ops == [] then given else
    var u := Step(s, ops[0]);
    Given(u, ops[1..], if ops[0].BeginOp? && u.next != s.next then given[ops[0].k := u.next] else given)
  }

  predicate Numbers(given: map<nat, nat>, k: nat, o: Outcome) {
    o.ErrorOf? || o.GarbledOf? || o.UnwantedOf? || o.ValueOf? ==> k in given && given[k] == o.id
  }

  predicate GivenTo(given: map<nat, nat>, k: nat, id: nat) { k in given && given[k] == id }

  ghost predicate Correlated(s: State, given: map<nat, nat>) {
    && (forall id :: id in s.pending ==> GivenTo(given, s.pending[id].done, id))
    && (s.reader.Some? ==> GivenTo(given, s.reader.value.entry.done, s.reader.value.id))
    && (forall k, i :: k in s.done && 0 <= i < |s.done[k]| ==> Numbers(given, k, s.done[k][i]))
    && (forall k :: k in given ==> k in s.begun && given[k] <= s.next)
    && (forall j, k :: j in given && k in given && j != k ==> given[j] != given[k])
  }

  lemma SignalCorrelated(s: State, given: map<nat, nat>, k: nat, o: Outcome)
    requires Correlated(s, given) && Numbers(given, k, o)
    ensures Correlated(Signal(s, k, o), given)
  {
    hide Numbers, GivenTo;
  }

  lemma ClosedCorrelated(s: State, given: map<nat, nat>)
    requires Correlated(s, given)
    ensures Correlated(Closed(s), given)
  {
    hide Numbers, GivenTo;
  }

  lemma FewerCorrelated(s: State, u: State, given: map<nat, nat>)
    requires Correlated(s, given) && u.done == s.done && u.next == s.next && s.begun <= u.begun
    requires forall id :: id in u.pending ==> id in s.pending && u.pending[id].done == s.pending[id].done
    requires u.reader == s.reader || u.reader.None?
    ensures Correlated(u, given)
  {
    hide Numbers, GivenTo;
  }

  lemma BeginCorrelated(s: State, given: map<nat, nat>, k: nat, encodable: bool)
    requires Correlated(s, given) && k !in s.begun
    ensures var u := Begun(s, k, encodable); Correlated(u, if u.next != s.next then given[k := u.next] else given)
  {
    var u, s1 := Begun(s, k, encodable), s.(begun := s.begun + {k});
    FewerCorrelated(s, s1, given);
    if u.next == s.next {
      SignalCorrelated(s1, given, k, u.done[k][|u.done[k]| - 1]);
    } else {
      MoreGiven(s, u, given, k);
    }
  }

  lemma MoreGiven(s: State, u: State, given: map<nat, nat>, k: nat)
    requires Correlated(s, given) && k !in s.begun && u.next == s.next + 1 && u.begun == s.begun + {k} && u.done == s.done && u.reader == s.reader
    requires u.pending == s.pending[u.next := Entry(k, false)]
    ensures Correlated(u, given[k := u.next])
  {
    assert k !in given;
    forall j, o | Numbers(given, j, o) ensures Numbers(given[k := u.next], j, o) { }
  }

  lemma FinishCorrelated(s: State, given: map<nat, nat>, reply: Reply, refused: bool)
    requires Correlated(s, given)
    ensures Correlated(Finish(s, reply, refused), given)
  {
    if s.reader.Some? {
      var p, id := s.reader.value.entry, s.reader.value.id;
      var s1 := s.(reader := None, observed := if reply != ErrorReply && !p.drained then s.observed + {p.done} else s.observed);
      FewerCorrelated(s, s1, given);
      ClosedCorrelated(s1, given);
      var s2 := if reply == Invalid || (reply == Valid && !p.drained && refused) then Closed(s1) else s1;
      var o := Verdict(id, reply, !p.drained && refused);
      assert Numbers(given, p.done, o);
      hide Correlated, Closed;
      SignalCorrelated(s2, given, p.done, o);
    }
  }

  lemma SendFailedCorrelated(s: State, given: map<nat, nat>, broken: bool)
    requires Correlated(s, given)
    ensures Correlated(SendFailed(s, broken), given)
  {
    if s.writing.Some? {
      ClosedCorrelated(s, given);
      var s1 := (if broken then Closed(s) else s).(writing := None);
      var id, k := s.writing.value.0, s.writing.value.1;
      FewerCorrelated(if broken then Closed(s) else s, s1, given);
      FewerCorrelated(s1, s1.(pending := s1.pending - {id}), given);
      hide Correlated, Closed;
      SignalCorrelated(s1.(pending := s1.pending - {id}), given, k, Unsent);
    }
  }

  lemma RespondCorrelated(s: State, given: map<nat, nat>, id: nat)
    requires Correlated(s, given)
    ensures Correlated(Respond(s, id), given)
  {
    ClosedCorrelated(s, given);
    hide Numbers;
  }

  lemma StepCorrelated(s: State, given: map<nat, nat>, op: Op)
    requires Correlated(s, given) && Enabled(s, op)
    ensures var u := Step(s, op);
      Correlated(u, if op.BeginOp? && u.next != s.next then given[op.k := u.next] else given)
  {
    hide Correlated, Begun, Finish, SendFailed, Respond, Closed;
    match op
    case BeginOp(k, encodable) => BeginCorrelated(s, given, k, encodable);
    case SentOp => FewerCorrelated(s, Sent(s), given);
    case SendFailedOp(broken) => SendFailedCorrelated(s, given, broken);
    case RespondOp(id) => RespondCorrelated(s, given, id);
    case FinishOp(reply, refused) => FinishCorrelated(s, given, reply, refused);
    case AbandonOp(id, k) => FewerCorrelated(s, Abandoned(s, id, k), given);
    case CloseOp => ClosedCorrelated(s, given);
    case NotifyOp(k) =>
      FewerCorrelated(s, s.(owed := s.owed - {k}), given);
      SignalCorrelated(s.(owed := s.owed - {k}), given, k, Lost);
  }

  lemma {:induction false} RunCorrelated(s: State, ops: seq<Op>, given: map<nat, nat>)
    requires Correlated(s, given) && Possible(s, ops)
    ensures Correlated(Run(s, ops), Given(s, ops, given))
    decreases |ops|
  {
    hide Correlated, Step, Enabled;
    if ops != [] {
      var u := Step(s, ops[0]);
      StepCorrelated(s, given, ops[0]);
      RunCorrelated(u, ops[1..], if ops[0].BeginOp? && u.next != s.next then given[ops[0].k := u.next] else given);
    }
  }

  /**
    In every interleaving, a caller is told the response to a request only if its
    call was given that very request identifier, and no two calls are given the
    same one: responses are never mixed up.
   */
  lemma {:induction false} RepliesReachTheirCaller(ops: seq<Op>, k: nat, i: nat)
    requires Possible(New(), ops) && i < |At(Run(New(), ops).done, k)|
    ensures var o, given := At(Run(New(), ops).done, k)[i], Given(New(), ops, map[]);
      && (o.ErrorOf? || o.GarbledOf? || o.UnwantedOf? || o.ValueOf? ==> k in given && given[k] == o.id)
      && (forall j :: j in given && k in given && j != k ==> given[j] != given[k])
  {
    assert Correlated(New(), map[]);
    hide Run, Possible, New, Given;
    RunCorrelated(New(), ops, map[]);
  }

  /** A call that is begun is in the table under a new number and about to be written, or is told why it is not; nobody else is told anything. */
  lemma CallIsBegunIfItMay(s: State, k: nat, encodable: bool)
    requires Ok(s) && k !in s.begun
    ensures var u := Begun(s, k, encodable);
      if encodable && !s.closed && s.next < MAX_REQUEST_ID && |s.pending| < MAX_OPERATIONS then
        && s.next + 1 !in s.pending && u.pending == s.pending[s.next + 1 := Entry(k, false)] && u.next == s.next + 1
        && u.writing == Some((s.next + 1, k)) && u.done == s.done
      else
        && u.pending == s.pending && u.next == s.next && u.writing == s.writing
        && exists why :: u.done == s.done[k := [Refused(why)]]
             && (why == Unencodable <==> !encodable) && (why == Busy ==> |s.pending| >= MAX_OPERATIONS) && (why == NotOpen ==> s.closed)
             && (why == Exhausted ==> s.next == MAX_REQUEST_ID)
  {
    assert Placed(s, k);
    assert At(s.done, k) == [];
    var u := Begun(s, k, encodable);
    if u.next == s.next {
      var why := u.done[k][0].why;
      assert [] + [Refused(why)] == [Refused(why)];
      assert u.done == s.done[k := [Refused(why)]];
    }
  }

  /** The response to a pending request is told to its caller, for what it is, and to nobody else; a caller that gave up has nothing touched. */
  lemma ResponseIsTold(s: State, id: nat, reply: Reply, refused: bool)
    requires Ok(s) && s.reader.None? && id in s.pending
    ensures var p, u := s.pending[id], Finish(Respond(s, id), reply, refused);
      && id !in u.pending && u.reader.None?
      && u.done == s.done[p.done := [match reply
                                     case ErrorReply => ErrorOf(id)
                                     case Invalid => GarbledOf(id)
                                     case Valid => if refused && !p.drained then UnwantedOf(id) else ValueOf(id)]]
      && (p.done in u.observed <==> reply != ErrorReply && !p.drained)
      && (u.closed <==> s.closed || reply == Invalid || (reply == Valid && refused && !p.drained))
  {
    var p := s.pending[id];
    assert Owns(s, id, p.done);
    assert Placed(s, p.done);
    assert At(s.done, p.done) == [];
    assert p.done in s.observed ==> Count(s.done, p.done) == 1;
    assert forall o: Outcome :: [] + [o] == [o];
  }

  /** A response that matches no request ends the connection, and everybody who waits will be told. */
  lemma UnmatchedResponseCloses(s: State, id: nat)
    requires Ok(s) && s.reader.None? && id !in s.pending
    ensures var u := Respond(s, id);
      u.closed && u.pending == map[] && u.done == s.done && forall j :: j in s.pending ==> s.pending[j].done in u.owed
  {
  }

  // ---- the connection object ----

  /** The channels once every call the closer took has been told. */
  function Told(done: map<nat, seq<Outcome>>, owed: set<nat>): map<nat, seq<Outcome>> {
    map k | k in done.Keys + owed :: At(done, k) + if k in owed then [Lost] else []
  }

  lemma ToldOne(done: map<nat, seq<Outcome>>, owed: set<nat>, k: nat)
    requires k in owed
    ensures Told(done[k := At(done, k) + [Lost]], owed - {k}) == Told(done, owed)
  {
    assert done[k := At(done, k) + [Lost]].Keys + (owed - {k}) == done.Keys + owed;
    assert forall o: seq<Outcome> :: o + [] == o;
  }

  lemma ToldNone(done: map<nat, seq<Outcome>>)
    ensures Told(done, {}) == done
  {
    assert forall o: seq<Outcome> :: o + [] == o;
  }

  class Conn {
    var next: nat
    var closed: bool
    var pending: map<nat, Entry>
    var writing: Option<(nat, nat)>
    var reader: Option<Reading>
    var owed: set<nat>
    var done: map<nat, seq<Outcome>>
    ghost var begun: set<nat>
    ghost var written: seq<nat>
    ghost var cancelled: set<nat>
    ghost var observed: set<nat>

    ghost function Snapshot(): State
      reads this
    {
      State(next, closed, pending, writing, reader, owed, done, begun, written, cancelled, observed)
    }

    constructor ()
      ensures Snapshot() == New()
    {
      next, closed, pending, writing, reader, owed, done := 0, false, map[], None, None, {}, map[];
      begun, written, cancelled, observed := {}, [], {}, {};
    }

    method Begin(k: nat, encodable: bool) returns (id: nat)
      modifies this
      ensures Snapshot() == Begun(old(Snapshot()), k, encodable)
      ensures id == if next == old(next) then 0 else next
    {
      begun := begun + {k};
      if !encodable || closed || next == MAX_REQUEST_ID || |pending| >= MAX_OPERATIONS {
        var why := if !encodable then Unencodable else if closed then NotOpen else if next == MAX_REQUEST_ID then Exhausted else Busy;
        done := done[k := At(done, k) + [Refused(why)]];
        return 0;
      }
      next := next + 1;
      pending := pending[next := Entry(k, false)];
      writing := Some((next, k));
      return next;
    }

    method Abandon(id: nat, k: nat) returns (gone: bool)
      modifies this
      ensures Snapshot() == Abandoned(old(Snapshot()), id, k) && gone == Owns(old(Snapshot()), id, k)
    {
      if id !in pending || pending[id].done != k {
        return false;
      }
      pending := pending[id := pending[id].(drained := true)];
      cancelled := cancelled + {k};
      return true;
    }

    method Drop(id: nat, k: nat) returns (ok: bool)
      modifies this
      ensures Snapshot() == Dropped(old(Snapshot()), id, k) && ok == Owns(old(Snapshot()), id, k)
    {
      ok := id in pending && pending[id].done == k;
      if ok {
        pending := pending - {id};
        done := done[k := At(done, k) + [Unsent]];
      }
    }

    /** The critical section of a close: the first closer takes the table. */
    method Close()
      modifies this
      ensures Snapshot() == Closed(old(Snapshot()))
    {
      if closed {
        return;
      }
      closed := true;
      owed := owed + set id | id in pending :: pending[id].done;
      pending := map[];
    }

    /** The rest of a close: tell each call taken, in whatever order the map yields them. */
    method TellAll()
      modifies this`owed, this`done
      ensures owed == {} && done == Told(old(done), old(owed))
    {
      hide Told;
      while owed != {}
        invariant Told(done, owed) == Told(old(done), old(owed))
        decreases |owed|
      {
        var k :| k in owed;
        ToldOne(done, owed, k);
        owed := owed - {k};
        done := done[k := At(done, k) + [Lost]];
      }
      ToldNone(done);
    }

    /** The reader correlates a response. */
    method ReceiveResponse(id: nat)
      modifies this
      ensures Snapshot() == Respond(old(Snapshot()), id)
    {
      if reader.Some? {
        return;
      }
      if id !in pending {
        Close();
        return;
      }
      reader := Some(Reading(id, pending[id]));
      pending := pending - {id};
    }

    /** The reader decodes the response, unless its caller gave up, runs the observer, and signals. */
    method FinishResponse(reply: Reply, refused: bool)
      modifies this
      ensures Snapshot() == Finish(old(Snapshot()), reply, refused)
    {
      hide Closed;
      if reader.None? {
        return;
      }
      var id, p := reader.value.id, reader.value.entry;
      reader := None;
      if reply != ErrorReply && !p.drained {
        observed := observed + {p.done};
      }
      if reply == Invalid || (reply == Valid && !p.drained && refused) {
        Close();
      }
      done := done[p.done := At(done, p.done) + [Verdict(id, reply, !p.drained && refused)]];
    }
  }
}
