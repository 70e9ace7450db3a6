/**
  Calls handed to the daemon's end of a federation link, which is replaced by a
  new one after a loss: each is answered exactly once, with the response to the
  request it was written as if there is one, and never written twice.
 */
module Forwarding {
  import opened Common

  /** What a caller gets: the link could not send the call, or was lost, or the response to request id. */
  datatype Reply = Unsent | Lost | By(id: nat)

  function At<T>(m: map<nat, seq<T>>, k: nat): seq<T> { if k in m then m[k] else [] }

  function Count<T>(m: map<nat, seq<T>>, k: nat): nat { |At(m, k)| }

  function Added<T>(m: map<nat, seq<T>>, k: nat, v: T): map<nat, seq<T>> { m[k := At(m, k) + [v]] }

  // ---- the daemon's end of a link ----

  /**
    Calls queued for the link and calls written and not yet answered, by ticket;
    `failing` is a cause to end the link, `returned` the link's loop having
    ended, `installed` the daemon still handing out calls to this link. The rest
    is history over all links: what each call was told, the calls handed over and
    those taken from a queue, in order, and the numbers each was written under.
   */
  datatype Link = Link(queue: seq<nat>, pending: map<nat, nat>, next: nat, failing: bool, returned: bool, installed: bool,
                       replies: map<nat, seq<Reply>>, posted: seq<nat>, taken: seq<nat>, written: map<nat, seq<nat>>)

  function NoLink(): Link { Link([], map[], 0, false, true, false, map[], [], [], map[]) }

  function Install(s: Link): Link {
    if s.installed then s else s.(queue := [], pending := map[], next := 0, failing := false, returned := false, installed := true)
  }

  /** Handing a call over; a full queue gives the link up and the caller is told at once. */
  function Post(s: Link, t: nat, room: bool): Link {
    if !s.installed then s else if room then s.(queue := s.queue + [t], posted := s.posted + [t]) else s.(failing := true)
  }

  /** The loop takes the oldest call: refused, or written and now pending. */
  function Take(s: Link, sent: bool, fatal: bool): Link {
    if s.returned || s.queue == [] then s else
    var t := s.queue[0];
    var s1 := s.(queue := s.queue[1..], taken := s.taken + [t], next := s.next + 1);
    if sent && !s.failing then s1.(pending := s.pending[s.next + 1 := t], written := Added(s.written, t, s.next + 1))
    else s1.(replies := Added(s.replies, t, Unsent), failing := s.failing || fatal)
  }

  function Respond(s: Link, id: nat, valid: bool): Link {
    if s.returned || s.failing then s
    else if id !in s.pending || !valid then s.(failing := true)
    else s.(pending := s.pending - {id}, replies := Added(s.replies, s.pending[id], By(id)))
  }

  function Fail(s: Link): Link { s.(failing := true) }

  /** Each of these calls is told that it is lost. */
  function Told(replies: map<nat, seq<Reply>>, ts: set<nat>): map<nat, seq<Reply>> {
    map t | t in replies.Keys + ts :: At(replies, t) + if t in ts then [Lost] else []
  }

  function ToldAll(replies: map<nat, seq<Reply>>, m: map<nat, nat>): map<nat, seq<Reply>> { Told(replies, m.Values) }

  /** The wire is closed: the loop settles what is pending and returns. */
  function End(s: Link): Link {
    if s.returned then s else s.(returned := true, pending := map[], replies := ToldAll(s.replies, s.pending))
  }

  /** The daemon takes the link down under its lock and settles what was still queued. */
  function Uninstall(s: Link): Link {
    if !s.returned || !s.installed then s
    else s.(installed := false, queue := [], taken := s.taken + s.queue, replies := Told(s.replies, set i | 0 <= i < |s.queue| :: s.queue[i]))
  }

  ghost predicate Waits(s: Link, t: nat) { exists id :: id in s.pending && s.pending[id] == t }

  predicate Queued(s: Link, t: nat) { t in s.queue }

  /** A call handed over is queued, pending or answered, and never two of these; it is written at most once. */
  ghost predicate Placed(s: Link, t: nat) {
    && Count(s.replies, t) <= 1 && Count(s.written, t) <= 1
    && (t in s.posted <==> Count(s.replies, t) == 1 || Queued(s, t) || Waits(s, t))
    && (Count(s.replies, t) == 1 ==> !Queued(s, t) && !Waits(s, t))
    && (Queued(s, t) ==> !Waits(s, t) && Count(s.written, t) == 0)
    && (t !in s.posted ==> Count(s.written, t) == 0)
  }

  ghost predicate LinkOk(s: Link) {
    && (forall t :: Placed(s, t))
    && (forall i, j :: 0 <= i < j < |s.queue| ==> s.queue[i] != s.queue[j])
    && Injective(s.pending) && (forall id :: id in s.pending ==> id <= s.next)
    && s.posted == s.taken + s.queue && (s.returned ==> s.pending == map[]) && (!s.installed ==> s.returned && s.queue == [])
  }

  lemma PostOk(s: Link, t: nat, room: bool)
    requires LinkOk(s) && t !in s.posted
    ensures LinkOk(Post(s, t, room))
  {
    var u := Post(s, t, room);
    forall k ensures Placed(u, k) {
      assert Placed(s, k);
      assert Waits(u, k) <==> Waits(s, k);
    }
    assert Placed(s, t);
  }

  lemma CountAdded<T>(m: map<nat, seq<T>>, t: nat, v: T, k: nat)
    ensures Count(Added(m, t, v), k) == Count(m, k) + if k == t then 1 else 0
  {
  }

  lemma QueueLess(queue: seq<nat>, k: nat)
    requires queue != [] && forall i, j :: 0 <= i < j < |queue| ==> queue[i] != queue[j]
    ensures k in queue[1..] <==> k in queue && k != queue[0]
  {
    if k in queue && k != queue[0] {
      var i :| 0 <= i < |queue| && queue[i] == k;
      assert queue[1..][i - 1] == k;
    }
  }

  lemma TakePlaced(s: Link, sent: bool, fatal: bool, k: nat)
    requires LinkOk(s) && !s.returned && s.queue != []
    ensures Placed(Take(s, sent, fatal), k)
  {
    hide Waits, Added;
    var u, t := Take(s, sent, fatal), s.queue[0];
    assert Placed(s, t) && Placed(s, k) && t in s.queue;
    QueueLess(s.queue, k);
    TakenWaits(s, u, t, k);
    CountAdded(s.written, t, s.next + 1, k);
    CountAdded(s.replies, t, Unsent, k);
    assert s.next + 1 !in s.pending;
    assert u.pending != s.pending <==> sent && !s.failing;
  }

  lemma TakeOk(s: Link, sent: bool, fatal: bool)
    requires LinkOk(s)
    ensures LinkOk(Take(s, sent, fatal))
  {
    if !s.returned && s.queue != [] {
      forall k ensures Placed(Take(s, sent, fatal), k) {
        TakePlaced(s, sent, fatal, k);
      }
      if sent && !s.failing {
        forall i | i in s.pending ensures s.pending[i] != s.queue[0] {
          assert Placed(s, s.queue[0]) && !Waits(s, s.queue[0]);
        }
      }
      hide Placed;
    }
  }

  lemma TakenWaits(s: Link, u: Link, t: nat, k: nat)
    requires u.pending == s.pending || (s.next + 1 !in s.pending && u.pending == s.pending[s.next + 1 := t])
    ensures Waits(u, k) <==> Waits(s, k) || (k == t && u.pending != s.pending)
  {
    if Waits(s, k) {
      var id :| id in s.pending && s.pending[id] == k;
      assert id in u.pending && u.pending[id] == k;
    }
    if u.pending != s.pending {
      assert u.pending[s.next + 1] == t;
    }
  }

  lemma RespondOk(s: Link, id: nat, valid: bool)
    requires LinkOk(s)
    ensures LinkOk(Respond(s, id, valid))
  {
    var u := Respond(s, id, valid);
    if u.pending != s.pending {
      var t := s.pending[id];
      assert Placed(s, t) && Waits(s, t);
      forall k ensures Placed(u, k) {
        assert Placed(s, k);
        if Waits(s, k) && k != t {
          var i :| i in s.pending && s.pending[i] == k;
          assert i in u.pending && u.pending[i] == k;
        }
        assert Waits(u, k) ==> Waits(s, k) && k != t;
      }
    } else {
      forall k ensures Placed(u, k) {
        assert Placed(s, k) && (Waits(u, k) <==> Waits(s, k));
      }
    }
  }

  lemma EndOk(s: Link)
    requires LinkOk(s)
    ensures LinkOk(End(s))
  {
    if !s.returned {
      var u := End(s);
      forall k ensures Placed(u, k) {
        assert Placed(s, k) && !Waits(u, k);
        assert k in s.pending.Values <==> Waits(s, k);
      }
    }
  }

  lemma UninstallOk(s: Link)
    requires LinkOk(s)
    ensures LinkOk(Uninstall(s))
  {
    if s.returned && s.installed {
      var u := Uninstall(s);
      forall k ensures Placed(u, k) {
        assert Placed(s, k) && (Waits(u, k) <==> Waits(s, k));
        assert k in (set i | 0 <= i < |s.queue| :: s.queue[i]) <==> Queued(s, k);
      }
    }
  }

  lemma InstallOk(s: Link)
    requires LinkOk(s)
    ensures LinkOk(Install(s)) && LinkOk(Fail(s))
  {
    forall k ensures Placed(Install(s), k) && Placed(Fail(s), k) {
      assert Placed(s, k) && (Waits(Install(s), k) <==> Waits(s, k)) && (Waits(Fail(s), k) <==> Waits(s, k));
    }
  }

  datatype LinkOp =
    | InstallOp | PostOp(t: nat, room: bool) | TakeOp(sent: bool, fatal: bool) | RespondOp(id: nat, valid: bool)
    | FailOp | EndOp | UninstallOp

  /** Reply channels are fresh. */
  predicate Enabled(s: Link, op: LinkOp) { op.PostOp? ==> op.t !in s.posted }

  function LinkStep(s: Link, op: LinkOp): Link {
    match op
    case InstallOp => Install(s)
    case PostOp(t, room) => Post(s, t, room)
    case TakeOp(sent, fatal) => Take(s, sent, fatal)
    case RespondOp(id, valid) => Respond(s, id, valid)
    case FailOp => Fail(s)
    case EndOp => End(s)
    case UninstallOp => Uninstall(s)
  }

  lemma LinkStepOk(s: Link, op: LinkOp)
    requires LinkOk(s) && Enabled(s, op)
    ensures LinkOk(LinkStep(s, op))
  {
    hide LinkOk;
    match op
    case InstallOp => InstallOk(s);
    case PostOp(t, room) => PostOk(s, t, room);
    case TakeOp(sent, fatal) => TakeOk(s, sent, fatal);
    case RespondOp(id, valid) => RespondOk(s, id, valid);
    case FailOp => InstallOk(s);
    case EndOp => EndOk(s);
    case UninstallOp => UninstallOk(s);
  }

  predicate Possible(s: Link, ops: seq<LinkOp>)
    decreases |ops|
  {
    ops == [] || (Enabled(s, ops[0]) && Possible(LinkStep(s, ops[0]), ops[1..]))
  }

  function Run(s: Link, ops: seq<LinkOp>): Link
    decreases |ops|
  {
    if ops == [] then s else Run(LinkStep(s, ops[0]), ops[1..])
  }

  lemma {:induction false} RunOk(s: Link, ops: seq<LinkOp>)
    requires LinkOk(s) && Possible(s, ops)
    ensures LinkOk(Run(s, ops))
    decreases |ops|
  {
    hide LinkOk, LinkStep, Enabled;
    if ops != [] {
      LinkStepOk(s, ops[0]);
      RunOk(LinkStep(s, ops[0]), ops[1..]);
    }
  }

  lemma NoLinkOk(s: Link)
    requires s == NoLink()
    ensures LinkOk(s)
  {
    assert forall t :: !Waits(s, t);
  }

  /**
    Over any number of links: a call handed to a link is written at most once,
    on any link, and answered at most once; and once no link is installed, every
    call ever handed over has been answered exactly once.
   */
  lemma {:induction false} LinkCallsAreAnswered(ops: seq<LinkOp>, t: nat)
    requires Possible(NoLink(), ops)
    ensures var s := Run(NoLink(), ops);
      && Count(s.written, t) <= 1 && Count(s.replies, t) <= (if t in s.posted then 1 else 0)
      && (!s.installed && t in s.posted ==> Count(s.replies, t) == 1)
  {
    NoLinkOk(NoLink());
    hide Run, Possible, NoLink;
    RunOk(NoLink(), ops);
    var s := Run(NoLink(), ops);
    assert Placed(s, t);
    if !s.installed {
      assert !Waits(s, t);
    }
  }

  // ---- responses and order ----

  /** A call that got a response was written under the number the response names; so is a call that waits for one. */
  ghost predicate Matched(s: Link) {
    && (forall id :: id in s.pending ==> id in At(s.written, s.pending[id]))
    && (forall t: nat, id: nat :: By(id) in At(s.replies, t) ==> id in At(s.written, t))
  }

  lemma ToldSays(replies: map<nat, seq<Reply>>, ts: set<nat>, t: nat, id: nat)
    ensures By(id) in At(Told(replies, ts), t) <==> By(id) in At(replies, t)
  {
  }

  lemma AddedSays(m: map<nat, seq<Reply>>, t: nat, v: Reply, k: nat, id: nat)
    ensures By(id) in At(Added(m, t, v), k) <==> By(id) in At(m, k) || (k == t && v == By(id))
  {
  }

  lemma AddedKeeps(m: map<nat, seq<nat>>, t: nat, v: nat)
    ensures (forall k: nat, id: nat :: id in At(m, k) ==> id in At(Added(m, t, v), k)) && v in At(Added(m, t, v), t)
  {
  }

  lemma TakeMatched(s: Link, sent: bool, fatal: bool)
    requires Matched(s)
    ensures Matched(Take(s, sent, fatal))
  {
    if !s.returned && s.queue != [] {
      var t := s.queue[0];
      AddedKeeps(s.written, t, s.next + 1);
      forall k: nat, id: nat ensures By(id) in At(Added(s.replies, t, Unsent), k) <==> By(id) in At(s.replies, k) { AddedSays(s.replies, t, Unsent, k, id); }
      hide Added, At;
    }
  }

  lemma RespondMatched(s: Link, id: nat, valid: bool)
    requires Matched(s)
    ensures Matched(Respond(s, id, valid))
  {
    if id in s.pending {
      var t := s.pending[id];
      forall k: nat, i: nat ensures By(i) in At(Added(s.replies, t, By(id)), k) <==> By(i) in At(s.replies, k) || (k == t && i == id) {
        AddedSays(s.replies, t, By(id), k, i);
      }
      hide Added, At;
    }
  }

  lemma StepMatched(s: Link, op: LinkOp)
    requires Matched(s)
    ensures Matched(LinkStep(s, op))
  {
    hide Told, Take, Respond;
    match op
    case TakeOp(sent, fatal) => TakeMatched(s, sent, fatal);
    case RespondOp(id, valid) => RespondMatched(s, id, valid);
    case _ =>
      forall ts: set<nat>, t: nat, id: nat
        ensures By(id) in At(Told(s.replies, ts), t) <==> By(id) in At(s.replies, t)
      {
        ToldSays(s.replies, ts, t, id);
      }
      hide At;
  }

  lemma {:induction false} RunMatched(s: Link, ops: seq<LinkOp>)
    requires LinkOk(s) && Matched(s) && Possible(s, ops)
    ensures Matched(Run(s, ops))
    decreases |ops|
  {
    hide LinkOk, Matched, LinkStep, Enabled;
    if ops != [] {
      LinkStepOk(s, ops[0]);
      StepMatched(s, ops[0]);
      RunMatched(LinkStep(s, ops[0]), ops[1..]);
    }
  }

  /**
    Over any number of links: a call that is told a response was written once, as
    the very request that the response answers; and calls are taken from the
    queue in the order in which they were handed over.
   */
  lemma {:induction false} ResponsesAnswerTheirCall(ops: seq<LinkOp>, t: nat, id: nat)
    requires Possible(NoLink(), ops)
    ensures var s := Run(NoLink(), ops);
      && (By(id) in At(s.replies, t) ==> At(s.replies, t) == [By(id)] && At(s.written, t) == [id])
      && s.posted == s.taken + s.queue
  {
    NoLinkOk(NoLink());
    assert Matched(NoLink());
    hide Run, Possible, NoLink;
    RunOk(NoLink(), ops);
    RunMatched(NoLink(), ops);
    var s := Run(NoLink(), ops);
    assert Placed(s, t);
  }

  /** On a link that is not failing, the oldest call is sent if it can be, under the next number; a response to it is passed on, for good. */
  lemma CallIsSentAndAnswered(s: Link)
    requires LinkOk(s) && !s.returned && !s.failing && s.queue != []
    ensures var t, u := s.queue[0], Take(s, true, false);
      && u.queue == s.queue[1..] && s.next + 1 in u.pending && u.pending[s.next + 1] == t && u.replies == s.replies && !u.failing
      && At(Respond(u, s.next + 1, true).replies, t) == [By(s.next + 1)] && s.next + 1 !in Respond(u, s.next + 1, true).pending
  {
    assert Placed(s, s.queue[0]);
    assert At(s.replies, s.queue[0]) == [];
  }

  /** A response nobody waits for, or one that cannot be read, fails the link; nobody is told anything by it. */
  lemma BadResponseFailsTheLink(s: Link, id: nat, valid: bool)
    requires !s.returned && !s.failing && (id !in s.pending || !valid)
    ensures var u := Respond(s, id, valid); u.failing && u.replies == s.replies && u.pending == s.pending
  {
  }

  // ---- the link object ----

  lemma ToldOne(replies: map<nat, seq<Reply>>, ts: set<nat>, t: nat)
    requires t in ts
    ensures Told(Added(replies, t, Lost), ts - {t}) == Told(replies, ts)
  {
    assert Added(replies, t, Lost).Keys + (ts - {t}) == replies.Keys + ts;
    assert forall v: seq<Reply> :: v + [] == v;
  }

  lemma ToldNone(replies: map<nat, seq<Reply>>)
    ensures Told(replies, {}) == replies
  {
    assert forall v: seq<Reply> :: v + [] == v;
  }

  class DaemonLink {
    var queue: seq<nat>
    var pending: map<nat, nat>
    var next: nat
    var failing: bool
    var returned: bool
    var installed: bool
    var replies: map<nat, seq<Reply>>
    ghost var posted: seq<nat>
    ghost var taken: seq<nat>
    ghost var written: map<nat, seq<nat>>

    ghost function Snapshot(): Link
      reads this
    {
      Link(queue, pending, next, failing, returned, installed, replies, posted, taken, written)
    }

    constructor ()
      ensures Snapshot() == NoLink()
    {
      queue, pending, next, failing, returned, installed, replies := [], map[], 0, false, true, false, map[];
      posted, taken, written := [], [], map[];
    }

    /** A call is handed to the link, if there is one with room for it. */
    method HandOver(t: nat, room: bool) returns (code: int)
      modifies this
      ensures Snapshot() == Post(old(Snapshot()), t, room)
      ensures code == if !old(installed) then UNKNOWN_HOST else if room then 0 else FORWARD_LOST
      ensures code == 0 ==> queue == old(queue) + [t]
      ensures code == FORWARD_LOST ==> failing && queue == old(queue)
    {
      if !installed {
        return UNKNOWN_HOST;
      }
      if room {
        queue, posted := queue + [t], posted + [t];
        return 0;
      }
      failing := true;
      return FORWARD_LOST;
    }

    method TakeCall(sent: bool, fatal: bool)
      modifies this
      ensures Snapshot() == Take(old(Snapshot()), sent, fatal)
    {
      if returned || |queue| == 0 {
        return;
      }
      var t := queue[0];
      queue, taken := queue[1..], taken + [t];
      next := next + 1;
      if failing || !sent {
        replies := Added(replies, t, Unsent);
        failing := failing || fatal;
        return;
      }
      pending := pending[next := t];
      written := Added(written, t, next);
    }

    method Response(id: nat, valid: bool)
      modifies this
      ensures Snapshot() == Respond(old(Snapshot()), id, valid)
    {
      if returned || failing {
        return;
      }
      if id !in pending || !valid {
        failing := true;
        return;
      }
      replies := Added(replies, pending[id], By(id));
      pending := pending - {id};
    }

    /** The loop's last act: tell every pending call, in whatever order the map yields them. */
    method SettlePending()
      requires Injective(pending)
      modifies this`pending, this`replies, this`returned
      ensures Snapshot() == End(old(Snapshot()))
    {
      hide ToldAll, Told, Added, Injective;
      if returned {
        return;
      }
      returned := true;
      while pending != map[]
        modifies this`pending, this`replies
        invariant Injective(pending)
        invariant ToldAll(replies, pending) == ToldAll(old(replies), old(pending))
        decreases |pending|
      {
        var id :| id in pending;
        TellStep(replies, pending, id);
        replies := Added(replies, pending[id], Lost);
        pending := pending - {id};
      }
      TellEnd(replies);
    }

    /** The daemon's last act on a link: tell every call still queued. */
    method SettleQueue()
      requires forall i, j :: 0 <= i < j < |queue| ==> queue[i] != queue[j]
      modifies this`queue, this`replies, this`installed, this`taken
      ensures Snapshot() == Uninstall(old(Snapshot()))
    {
      if !returned || !installed {
        return;
      }
      installed := false;
      while |queue| > 0
        modifies this`queue, this`replies, this`taken
        invariant taken + queue == old(taken) + old(queue)
        invariant forall i, j :: 0 <= i < j < |queue| ==> queue[i] != queue[j]
        invariant Told(replies, Members(queue)) == Told(old(replies), Members(old(queue)))
        decreases |queue|
      {
        var t := queue[0];
        ToldOne(replies, Members(queue), t);
        MembersLess(queue);
        queue, taken := queue[1..], taken + [t];
        replies := Added(replies, t, Lost);
      }
      ToldNone(replies);
    }
  }

  predicate Injective(m: map<nat, nat>) { forall i, j :: i in m && j in m && i != j ==> m[i] != m[j] }

  function Members(q: seq<nat>): set<nat> { set i | 0 <= i < |q| :: q[i] }

  lemma MembersLess(q: seq<nat>)
    requires q != [] && forall i, j :: 0 <= i < j < |q| ==> q[i] != q[j]
    ensures q[0] in Members(q) && Members(q[1..]) == Members(q) - {q[0]}
  {
    assert forall k :: k in Members(q[1..]) <==> k in Members(q) && k != q[0] by {
      assert forall i :: 0 < i < |q| ==> q[1..][i - 1] == q[i];
    }
  }

  lemma ValuesLess(m: map<nat, nat>, id: nat)
    requires id in m && Injective(m)
    ensures Injective(m - {id}) && m[id] in m.Values && (m - {id}).Values == m.Values - {m[id]} && |m - {id}| < |m|
  {
    assert (m - {id}).Keys == m.Keys - {id};
    assert |m.Keys| == |m| && |(m - {id}).Keys| == |m - {id}|;
    forall v | v in m.Values && v != m[id] ensures v in (m - {id}).Values {
      var k :| k in m && m[k] == v;
      assert k in m - {id} && (m - {id})[k] == v;
    }
  }

  lemma TellStep(replies: map<nat, seq<Reply>>, m: map<nat, nat>, id: nat)
    requires id in m && Injective(m)
    ensures ToldAll(Added(replies, m[id], Lost), m - {id}) == ToldAll(replies, m) && Injective(m - {id}) && |m - {id}| < |m|
  {
    ValuesLess(m, id);
    ToldOne(replies, m.Values, m[id]);
  }

  lemma TellEnd(replies: map<nat, seq<Reply>>)
    ensures ToldAll(replies, map[]) == replies
  {
    var none: map<nat, nat> := map[];
    assert none.Values == {};
    ToldNone(replies);
  }
}
