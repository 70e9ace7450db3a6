/**
  A peer's identity on one connection: what it wants to be, what it was last
  admitted as, and the hello loops that carry changes to the daemon while
  earlier acknowledgements are still under way.
 */
module PeerHello {
  import opened Common

  /** One hello as a loop last read it: the identity and the generation it stood for. */
  datatype Hello = Hello(identity: nat, generation: nat)

  datatype Frame = Frame(call: nat, hello: Hello)

  /**
    `sending` are the loops about to write; `frames` are all hellos ever written
    on this connection, the first `processed` of them handled by the daemon and
    the first `observed` of those acknowledgements seen by the peer. `resends`
    counts how often each loop went round again.
   */
  datatype State = State(identity: nat, generation: nat, admitted: Option<nat>, installed: bool,
                         sending: map<nat, Hello>, frames: seq<Frame>, processed: nat, observed: nat,
                         calls: nat, resends: map<nat, nat>)

  /** A connection starts with the hello of the reconnect loop. */
  function Dialled(identity: nat, generation: nat): State {
    State(identity, generation, None, false, map[0 := Hello(identity, generation)], [], 0, 0, 1, map[])
  }

  function Count(m: map<nat, nat>, k: nat): nat { if k in m then m[k] else 0 }

  /** A new identity is wanted; without an installed connection some earlier loop will pick it up. */
  function Desired(s: State, identity: nat, replacement: bool): State {
    if !replacement && identity == s.identity then s else
    var s1 := s.(identity := identity, generation := s.generation + 1, installed := s.installed && !replacement);
    if !s.installed then s1 else s1.(sending := s.sending[s.calls := Hello(identity, s.generation + 1)], calls := s.calls + 1)
  }

  function Send(s: State, k: nat): State {
    if k !in s.sending then s else s.(sending := s.sending - {k}, frames := s.frames + [Frame(k, s.sending[k])])
  }

  function Process(s: State): State { if s.processed < |s.frames| then s.(processed := s.processed + 1) else s }

  /** An acknowledgement: it installs the identity it stood for only if that is still the wanted one. */
  function Observe(s: State): State {
    if s.observed >= s.processed || s.observed >= |s.frames| then s else
    var f := s.frames[s.observed];
    var s1 := s.(observed := s.observed + 1);
    if f.hello.generation == s.generation then s1.(admitted := Some(f.hello.identity), installed := true)
    else s1.(sending := s.sending[f.call := Hello(s.identity, s.generation)], resends := s.resends[f.call := Count(s.resends, f.call) + 1])
  }

  datatype Op = DesireOp(identity: nat, replacement: bool) | SendOp(k: nat) | ProcessOp | ObserveOp

  ghost predicate Ok(s: State) {
    && s.observed <= s.processed <= |s.frames|
    && (forall k :: k in s.sending ==> Current(s, s.sending[k]) && k < s.calls)
    && (forall i :: 0 <= i < |s.frames| ==> Current(s, s.frames[i].hello) && s.frames[i].call < s.calls)
    && (forall i :: s.observed <= i < |s.frames| ==> s.frames[i].call !in s.sending)
    && (forall i, j :: s.observed <= i < j < |s.frames| ==> s.frames[i].call != s.frames[j].call)
    && (!s.installed ==> !Settled(s))
    && (Settled(s) ==> |s.frames| > 0 && s.frames[|s.frames| - 1].hello.generation == s.generation && s.admitted == Some(s.identity))
  }

  /** A hello of the present generation carries the present identity. */
  predicate Current(s: State, h: Hello) { h.generation <= s.generation && (h.generation == s.generation ==> h.identity == s.identity) }

  /** No hello is outstanding and none is about to be written. */
  predicate Settled(s: State) { s.sending == map[] && s.observed == |s.frames| }

  function Step(s: State, op: Op): State {
    match op
    case DesireOp(identity, replacement) => Desired(s, identity, replacement)
    case SendOp(k) => Send(s, k)
    case ProcessOp => Process(s)
    case ObserveOp => Observe(s)
  }

  lemma DesireOk(s: State, identity: nat, replacement: bool)
    requires Ok(s)
    ensures Ok(Desired(s, identity, replacement))
  {
    var u := Desired(s, identity, replacement);
    if s.installed && u != s {
      assert s.calls in u.sending;
    }
  }

  lemma SendOk(s: State, k: nat)
    requires Ok(s)
    ensures Ok(Send(s, k))
  {
    var u := Send(s, k);
    assert forall i :: 0 <= i < |s.frames| ==> u.frames[i] == s.frames[i];
  }

  lemma ObserveOk(s: State)
    requires Ok(s)
    ensures Ok(Observe(s))
  {
    if s.observed < s.processed && s.frames[s.observed].hello.generation != s.generation {
      assert s.frames[s.observed].call in Observe(s).sending;
    }
  }

  /** A new identity is what is wanted from then on, and a hello that will carry it is under way; the same one again changes nothing. */
  lemma WishIsRecorded(s: State, identity: nat, replacement: bool)
    requires Ok(s)
    ensures var u := Desired(s, identity, replacement);
      && u.identity == identity && u.frames == s.frames && u.admitted == s.admitted
      && (identity == s.identity && !replacement ==> u == s)
      && (identity != s.identity || replacement ==> u.generation == s.generation + 1 && !Settled(u))
  {
    DesireOk(s, identity, replacement);
  }

  lemma StepOk(s: State, op: Op)
    requires Ok(s)
    ensures Ok(Step(s, op))
  {
    hide Desired, Send, Observe;
    match op
    case DesireOp(identity, replacement) => DesireOk(s, identity, replacement);
    case SendOp(k) => SendOk(s, k);
    case ProcessOp =>
    case ObserveOp => ObserveOk(s);
  }

  function Run(s: State, ops: seq<Op>): State
    decreases |ops|
  {
    if ops == [] then s else Run(Step(s, ops[0]), ops[1..])
  }

  lemma {:induction false} RunOk(s: State, ops: seq<Op>)
    requires Ok(s)
    ensures Ok(Run(s, ops))
    decreases |ops|
  {
    hide Ok, Step;
    if ops != [] {
      StepOk(s, ops[0]);
      RunOk(Step(s, ops[0]), ops[1..]);
    }
  }

  lemma StartOk(identity: nat, generation: nat)
    ensures Ok(Dialled(identity, generation))
  {
    assert 0 in Dialled(identity, generation).sending;
  }

  /**
    However rehellos and acknowledgements crossed: once no hello is outstanding,
    the identity the daemon processed last, the one the peer was admitted with
    and the one it wants are the same.
   */
  lemma {:induction false} IdentityConverges(identity: nat, generation: nat, ops: seq<Op>)
    requires Settled(Run(Dialled(identity, generation), ops))
    ensures var s := Run(Dialled(identity, generation), ops);
      && s.processed == |s.frames| > 0
      && s.admitted == Some(s.identity) && s.frames[s.processed - 1].hello.identity == s.identity && s.installed
  {
    StartOk(identity, generation);
    hide Run, Dialled;
    RunOk(Dialled(identity, generation), ops);
  }

  predicate NoDesire(ops: seq<Op>) { forall i :: 0 <= i < |ops| ==> !ops[i].DesireOp? }

  /** Everything call k still has out stands for the present generation. */
  ghost predicate Fresh(s: State, k: nat) {
    && (k in s.sending ==> s.sending[k].generation == s.generation)
    && (forall i :: s.observed <= i < |s.frames| && s.frames[i].call == k ==> s.frames[i].hello.generation == s.generation)
  }

  lemma FreshStays(s: State, op: Op, k: nat)
    requires Ok(s) && !op.DesireOp?
    ensures var u := Step(s, op);
      && Count(s.resends, k) <= Count(u.resends, k) <= Count(s.resends, k) + (if Fresh(s, k) then 0 else 1)
      && (Count(u.resends, k) > Count(s.resends, k) ==> Fresh(u, k))
      && (Fresh(s, k) ==> Fresh(u, k))
  {
    var u := Step(s, op);
    if op == ObserveOp && s.observed < s.processed {
      assert forall i :: s.observed < i < |s.frames| ==> s.frames[i].call != s.frames[s.observed].call;
    } else if op.SendOp? {
      assert forall i :: 0 <= i < |s.frames| ==> u.frames[i] == s.frames[i];
    }
  }

  /** After the last change of mind, no hello loop goes round more than once. */
  lemma {:induction false} ResendsAtMostOnce(s: State, ops: seq<Op>, k: nat)
    requires Ok(s) && NoDesire(ops)
    ensures Count(Run(s, ops).resends, k) <= Count(s.resends, k) + (if Fresh(s, k) then 0 else 1)
    decreases |ops|
  {
    hide Ok, Step, Fresh;
    if ops != [] {
      StepOk(s, ops[0]);
      FreshStays(s, ops[0], k);
      assert NoDesire(ops[1..]);
      ResendsAtMostOnce(Step(s, ops[0]), ops[1..], k);
    }
  }

  // ---- the peer object ----

  class Peer {
    var identity: nat
    var generation: nat
    var admitted: Option<nat>
    var installed: bool
    var sending: map<nat, Hello>
    var calls: nat
    ghost var frames: seq<Frame>
    ghost var processed: nat
    ghost var observed: nat
    ghost var resends: map<nat, nat>

    ghost function Snapshot(): State
      reads this
    {
      State(identity, generation, admitted, installed, sending, frames, processed, observed, calls, resends)
    }

    constructor (identity: nat, generation: nat)
      ensures Snapshot() == Dialled(identity, generation)
    {
      this.identity, this.generation, admitted, installed := identity, generation, None, false;
      sending, calls := map[0 := Hello(identity, generation)], 1;
      frames, processed, observed, resends := [], 0, 0, map[];
    }

    /** Rehello and Replace: record the wanted identity and, on an installed connection, start a loop for it. */
    method Desire(next: nat, replacement: bool) returns (started: bool)
      modifies this
      ensures Snapshot() == Desired(old(Snapshot()), next, replacement)
      ensures started == (calls != old(calls))
    {
      if !replacement && next == identity {
        return false;
      }
      identity, generation := next, generation + 1;
      started := installed;
      if replacement {
        installed := false;
      }
      if started {
        sending := sending[calls := Hello(next, generation)];
        calls := calls + 1;
      }
    }

    /** The observer of call k's acknowledgement, run before the next frame is read. */
    method Acknowledged(hello: Hello, k: nat) returns (done: bool)
      requires observed < processed && observed < |frames| && frames[observed] == Frame(k, hello)
      modifies this
      ensures Snapshot() == Observe(old(Snapshot())) && done == (hello.generation == generation)
    {
      observed := observed + 1;
      if hello.generation == generation {
        admitted, installed := Some(hello.identity), true;
        return true;
      }
      sending := sending[k := Hello(identity, generation)];
      resends := resends[k := Count(resends, k) + 1];
      return false;
    }
  }
}
