/**
  Lifetimes and the lanes that depend on them. A lifetime ends at most once, the
  takeover of a peer's identifier moves its lifetime on, and a lane whose owner
  has ended is always on its way out.
 */
module Ownership {
  import opened Common

  /** A directory entry: a peer or a connected lane, the session that serves it, its own lifetime and its owner's. */
  datatype Member = Member(peer: bool, parent: Option<nat>, persistent: bool, session: Option<nat>, lifetime: Option<nat>)

  /**
    `notices` are the owner-end events in each session's inbox; `leaving` are the
    sessions that are closing, stopping or have lost their wire. `remotes` are
    the lifetimes of callers on other hosts. `endings` counts how often each
    lifetime was ended.
   */
  datatype State = State(members: map<nat, Member>, remotes: set<nat>, notices: map<nat, set<nat>>, leaving: set<nat>,
                         ended: set<nat>, endings: map<nat, nat>, next: nat)

  function New(): State { State(map[], {}, map[], {}, {}, map[], 0) }

  function Count(m: map<nat, nat>, k: nat): nat { if k in m then m[k] else 0 }

  function NoticesOf(s: State, k: nat): set<nat> { if k in s.notices then s.notices[k] else {} }

  /** A connected lane that must not outlive this owner. */
  predicate Follows(m: Member, owner: nat) { !m.peer && m.parent == Some(owner) && !m.persistent && m.session.Some? }

  /** The sessions of the entries with these identifiers that follow the owner. */
  function Followers(members: map<nat, Member>, ids: set<nat>, owner: nat): set<nat> {
    set id | id in ids && id in members && Follows(members[id], owner) :: members[id].session.value
  }

  /** Each of these sessions gets the notice, or loses its wire if its inbox is full. */
  function Posted(notices: map<nat, set<nat>>, sessions: set<nat>, owner: nat, room: nat -> bool): map<nat, set<nat>> {
    map k | k in notices :: if k in sessions && room(k) then notices[k] + {owner} else notices[k]
  }

  function Dropped(notices: map<nat, set<nat>>, sessions: set<nat>, room: nat -> bool): set<nat> {
    set k | k in sessions && !(k in notices && room(k))
  }

  function Ended(s: State, owner: Option<nat>, room: nat -> bool): State {
    if owner.None? || owner.value in s.ended then s else
    var told := Followers(s.members, s.members.Keys, owner.value);
    s.(ended := s.ended + {owner.value}, endings := s.endings[owner.value := Count(s.endings, owner.value) + 1],
       notices := Posted(s.notices, told, owner.value, room), leaving := s.leaving + Dropped(s.notices, told, room))
  }

  /** An entry's connection ends, and with it the entry's own lifetime. */
  function Detach(s: State, id: nat, room: nat -> bool): State {
    if id !in s.members || s.members[id].session.None? then s else
    var u := Ended(s, s.members[id].lifetime, room);
    if s.members[id].peer then u.(members := s.members - {id}) else u.(members := s.members[id := s.members[id].(session := None)])
  }

  /** A lane is published only while its owner lives, unless it is persistent. */
  function Publish(s: State, id: nat, owner: Option<nat>, persistent: bool, k: nat): State {
    if owner.Some? && owner.value in s.ended && !persistent then s
    else if id in s.members && (s.members[id].peer || s.members[id].session.Some?) then s
    else s.(members := s.members[id := Member(false, owner, persistent, Some(k), Some(s.next))],
            notices := s.notices[k := {}], next := s.next + 1)
  }

  /** A peer's hello on session k: it gives up `left`, the identifier it had, and takes over whoever had id before. */
  function InstallPeer(s: State, k: nat, left: Option<nat>, id: nat, room: nat -> bool): State {
    if left.Some? && (left.value !in s.members || s.members[left.value].session != Some(k)) then s
    else if left == Some(id) || (id in s.members && !s.members[id].peer) then s
    else
      var m := if left.Some? then Detach(s, left.value, room) else s;
      var kept := if id in m.members then m.members[id].lifetime else Some(m.next);
      m.(members := m.members[id := Member(true, None, false, Some(k), kept)],
         notices := m.notices[k := NoticesOf(m, k)], next := m.next + 1)
  }

  /** The session handles one notice: a lane whose owner it names starts its own close. */
  function HandleNotice(s: State, id: nat, owner: nat): State {
    if id !in s.members || s.members[id].session.None? || owner !in NoticesOf(s, s.members[id].session.value) then s else
    var k := s.members[id].session.value;
    var s1 := s.(notices := s.notices[k := s.notices[k] - {owner}]);
    if Follows(s.members[id], owner) && owner in s.ended then s1.(leaving := s1.leaving + {k}) else s1
  }

  /** A caller on another host owns something here for the first time. */
  function Meet(s: State): State { s.(remotes := s.remotes + {s.next}, next := s.next + 1) }

  /** Another host, or the link to it, reports the end of one remote lifetime. */
  function RemoteEnd(s: State, owner: nat, room: nat -> bool): State {
    if owner !in s.remotes then s else Ended(s, Some(owner), room).(remotes := s.remotes - {owner})
  }

  function Leave(s: State, k: nat): State { s.(leaving := s.leaving + {k}) }

  // ---- what every step keeps ----

  /** A lane whose owner has ended has the notice waiting or is already leaving. */
  ghost predicate Bound(s: State, id: nat)
    requires id in s.members
  {
    var m := s.members[id];
    m.parent.Some? && m.parent.value in s.ended && Follows(m, m.parent.value) ==>
      m.parent.value in NoticesOf(s, m.session.value) || m.session.value in s.leaving
  }

  /** A connected entry has a lifetime of its own that has not ended. */
  ghost predicate Alive(s: State, id: nat)
    requires id in s.members
  {
    var m := s.members[id];
    m.session.Some? ==>
      && m.session.value in s.notices && m.lifetime.Some? && m.lifetime.value < s.next
      && m.lifetime.value !in s.ended && m.lifetime.value !in s.remotes
  }

  ghost predicate Apart(s: State) {
    forall i, j :: i in s.members && j in s.members && i != j && s.members[i].session.Some? && s.members[j].session.Some? ==>
      s.members[i].session != s.members[j].session && s.members[i].lifetime != s.members[j].lifetime
  }

  ghost predicate LedgerOk(s: State) {
    && (forall o: nat :: Count(s.endings, o) == if o in s.ended then 1 else 0)
    && (forall o :: o in s.ended ==> o < s.next) && (forall o :: o in s.remotes ==> o < s.next && o !in s.ended)
  }

  ghost predicate MembersOk(s: State) { forall id :: id in s.members ==> Bound(s, id) && Alive(s, id) }

  predicate PeersOn(s: State) { forall id :: id in s.members && s.members[id].peer ==> s.members[id].session.Some? }

  ghost predicate Ok(s: State) { MembersOk(s) && Apart(s) && PeersOn(s) && LedgerOk(s) }

  lemma EndedBound(s: State, owner: nat, room: nat -> bool, id: nat)
    requires id in s.members && Bound(s, id) && Alive(s, id) && owner !in s.ended
    ensures Bound(Ended(s, Some(owner), room), id)
  {
    var m, u := s.members[id], Ended(s, Some(owner), room);
    if m.parent == Some(owner) && Follows(m, owner) {
      var told := Followers(s.members, s.members.Keys, owner);
      assert m.session.value in told;
    }
  }

  lemma EndOwnerOk(s: State, owner: nat, room: nat -> bool)
    requires Ok(s) && owner < s.next && owner !in s.ended
    ensures var u := Ended(s, Some(owner), room);
      && u.members == s.members && u.ended == s.ended + {owner} && u.next == s.next && u.remotes == s.remotes && u.notices.Keys == s.notices.Keys
      && (forall id :: id in u.members ==> Bound(u, id))
      && (forall o: nat :: Count(u.endings, o) == if o in u.ended then 1 else 0)
  {
    var u := Ended(s, Some(owner), room);
    forall id | id in u.members ensures Bound(u, id) {
      EndedBound(s, owner, room, id);
    }
  }

  lemma DetachShape(s: State, id: nat, room: nat -> bool)
    requires id in s.members && s.members[id].session.Some? && s.members[id].lifetime.Some? && s.members[id].lifetime.value !in s.ended
    ensures var u, m := Detach(s, id, room), Ended(s, s.members[id].lifetime, room);
      && u.next == s.next && u.ended == s.ended + {s.members[id].lifetime.value} && u.remotes == s.remotes
      && u.notices == m.notices && u.leaving == m.leaving && u.endings == m.endings
      && (forall j :: j in s.members && j != id ==> j in u.members && u.members[j] == s.members[j])
      && (forall j :: j in u.members ==> j in s.members && (u.members[j].session.Some? ==> j != id))
      && (id in u.members ==> !u.members[id].peer)
  {
  }

  lemma DetachMembers(s: State, id: nat, room: nat -> bool)
    requires Ok(s) && id in s.members && s.members[id].session.Some?
    ensures MembersOk(Detach(s, id, room))
  {
    hide LedgerOk, PeersOn;
    assert Alive(s, id);
    var o, u := s.members[id].lifetime.value, Detach(s, id, room);
    DetachShape(s, id, room);
    forall j | j in u.members ensures Bound(u, j) && Alive(u, j) {
      assert Bound(s, j) && Alive(s, j);
      EndedBound(s, o, room, j);
      DetachedMember(s, id, room, j);
    }
  }

  lemma DetachedMember(s: State, id: nat, room: nat -> bool, j: nat)
    requires id in s.members && s.members[id].session.Some? && Alive(s, id) && j in Detach(s, id, room).members && j in s.members
    requires Alive(s, j) && Bound(Ended(s, s.members[id].lifetime, room), j)
    requires j != id && s.members[j].session.Some? ==> s.members[j].lifetime != s.members[id].lifetime
    ensures Bound(Detach(s, id, room), j) && Alive(Detach(s, id, room), j)
  {
  }

  lemma DetachOk(s: State, id: nat, room: nat -> bool)
    requires Ok(s)
    ensures Ok(Detach(s, id, room))
  {
    if id in s.members && s.members[id].session.Some? {
      assert Alive(s, id);
      DetachMembers(s, id, room);
      DetachShape(s, id, room);
      hide MembersOk, Detach;
    }
  }

  lemma PublishOk(s: State, id: nat, owner: Option<nat>, persistent: bool, k: nat)
    requires Ok(s) && k !in s.notices
    ensures Ok(Publish(s, id, owner, persistent, k))
  {
    var u := Publish(s, id, owner, persistent, k);
    if u != s {
      forall j | j in u.members ensures Bound(u, j) && Alive(u, j) {
        if j != id { assert Bound(s, j) && Alive(s, j); }
      }
      forall j | j in s.members && j != id && s.members[j].session.Some?
        ensures s.members[j].session != Some(k) && s.members[j].lifetime != Some(s.next)
      {
        assert Alive(s, j);
      }
    }
  }

  /** A session serves the entry it says it leaves, or none at all. */
  ghost predicate Bare(s: State, k: nat, left: Option<nat>) {
    forall j :: j in s.members && left != Some(j) ==> s.members[j].session != Some(k)
  }

  lemma ServesOne(s: State, k: nat, id: nat)
    requires Apart(s) && id in s.members && s.members[id].session == Some(k)
    ensures Bare(s, k, Some(id))
  {
  }

  function TakenOver(s: State, k: nat, id: nat): State {
    var kept := if id in s.members then s.members[id].lifetime else Some(s.next);
    s.(members := s.members[id := Member(true, None, false, Some(k), kept)],
       notices := s.notices[k := NoticesOf(s, k)], next := s.next + 1)
  }

  lemma TakeOverOk(s: State, k: nat, id: nat)
    requires Ok(s) && Bare(s, k, None) && (id in s.members ==> s.members[id].peer)
    ensures Ok(TakenOver(s, k, id))
  {
    var kept := if id in s.members then s.members[id].lifetime else Some(s.next);
    var u := TakenOver(s, k, id);
    if id in s.members { assert Alive(s, id); }
    forall j | j in u.members ensures Bound(u, j) && Alive(u, j) {
      if j != id { assert Bound(s, j) && Alive(s, j); }
    }
    forall j | j in s.members && j != id && s.members[j].session.Some?
      ensures s.members[j].session != Some(k) && s.members[j].lifetime != kept
    {
      assert Alive(s, j);
    }
    hide Bound, Alive;
  }

  lemma InstallPeerOk(s: State, k: nat, left: Option<nat>, id: nat, room: nat -> bool)
    requires Ok(s) && (left.None? ==> Bare(s, k, None))
    ensures Ok(InstallPeer(s, k, left, id, room))
  {
    if left.None? {
      hide Ok;
      if id !in s.members || s.members[id].peer { TakeOverOk(s, k, id); }
    } else if left.value in s.members && s.members[left.value].session == Some(k) && left != Some(id) && (id !in s.members || s.members[id].peer) {
      MovedOk(s, k, left.value, id, room);
    }
  }

  lemma MovedOk(s: State, k: nat, left: nat, id: nat, room: nat -> bool)
    requires Ok(s) && left in s.members && s.members[left].session == Some(k) && left != id && (id in s.members ==> s.members[id].peer)
    ensures Ok(TakenOver(Detach(s, left, room), k, id))
  {
    assert Alive(s, left);
    ServesOne(s, k, left);
    DetachOk(s, left, room);
    hide Ok, Apart;
    DetachShape(s, left, room);
    var m := Detach(s, left, room);
    hide Detach, Ended, Alive;
    BareAfter(s, m, k, left);
    TakeOverOk(m, k, id);
  }

  lemma BareAfter(s: State, m: State, k: nat, id: nat)
    requires Bare(s, k, Some(id)) && (forall j :: j in m.members ==> j in s.members && (m.members[j].session.Some? ==> j != id))
    requires forall j :: j in s.members && j != id ==> j in m.members && m.members[j] == s.members[j]
    ensures Bare(m, k, None)
  {
  }

  lemma HandleNoticeOk(s: State, id: nat, owner: nat)
    requires Ok(s)
    ensures Ok(HandleNotice(s, id, owner))
  {
    var u := HandleNotice(s, id, owner);
    if u != s {
      assert Alive(s, id);
      forall j | j in u.members ensures Bound(u, j) && Alive(u, j) {
        assert Bound(s, j) && Alive(s, j);
      }
    }
  }

  lemma LeaveOk(s: State, k: nat)
    requires Ok(s)
    ensures Ok(Leave(s, k))
  {
    forall j | j in s.members ensures Bound(Leave(s, k), j) && Alive(Leave(s, k), j) {
      assert Bound(s, j) && Alive(s, j);
    }
  }

  lemma MeetOk(s: State)
    requires Ok(s)
    ensures Ok(Meet(s))
  {
    forall j | j in s.members ensures Bound(Meet(s), j) && Alive(Meet(s), j) {
      assert Bound(s, j) && Alive(s, j);
    }
  }

  lemma RemoteEndOk(s: State, owner: nat, room: nat -> bool)
    requires Ok(s)
    ensures Ok(RemoteEnd(s, owner, room))
  {
    if owner in s.remotes {
      EndOwnerOk(s, owner, room);
      var m, u := Ended(s, Some(owner), room), RemoteEnd(s, owner, room);
      hide Ended;
      forall j | j in u.members ensures Bound(u, j) && Alive(u, j) {
        assert Bound(m, j) && Alive(s, j);
      }
    }
  }

  /** `room` says which inboxes have room at that moment. */
  datatype Op =
    | DetachOp(id: nat, room: nat -> bool) | PublishOp(id: nat, parent: Option<nat>, persistent: bool, k: nat)
    | InstallPeerOp(k: nat, left: Option<nat>, id: nat, room: nat -> bool) | HandleNoticeOp(id: nat, owner: nat)
    | MeetOp | RemoteEndOp(owner: nat, room: nat -> bool) | LeaveOp(k: nat)

  /** A lane's session is new; a peer's session leaves the entry it serves. */
  ghost predicate Enabled(s: State, op: Op) {
    match op
    case PublishOp(_, _, _, k) => k !in s.notices
    case InstallPeerOp(k, left, _, _) => left.None? ==> Bare(s, k, None)
    case _ => true
  }

  function Step(s: State, op: Op): State {
    match op
    case DetachOp(id, room) => Detach(s, id, room)
    case PublishOp(id, owner, persistent, k) => Publish(s, id, owner, persistent, k)
    case InstallPeerOp(k, left, id, room) => InstallPeer(s, k, left, id, room)
    case HandleNoticeOp(id, owner) => HandleNotice(s, id, owner)
    case MeetOp => Meet(s)
    case RemoteEndOp(owner, room) => RemoteEnd(s, owner, room)
    case LeaveOp(k) => Leave(s, k)
  }

  lemma StepOk(s: State, op: Op)
    requires Ok(s) && Enabled(s, op)
    ensures Ok(Step(s, op)) && s.ended <= Step(s, op).ended
  {
    hide Ok;
    match op
    case DetachOp(id, room) => DetachOk(s, id, room);
    case PublishOp(id, owner, persistent, k) => PublishOk(s, id, owner, persistent, k);
    case InstallPeerOp(k, left, id, room) => InstallPeerOk(s, k, left, id, room);
    case HandleNoticeOp(id, owner) => HandleNoticeOk(s, id, owner);
    case MeetOp => MeetOk(s);
    case RemoteEndOp(owner, room) => RemoteEndOk(s, owner, room);
    case LeaveOp(k) => LeaveOk(s, k);
  }

  ghost predicate Possible(s: State, ops: seq<Op>)
    decreases |ops|
  {
    ops == [] || (Enabled(s, ops[0]) && Possible(Step(s, ops[0]), ops[1..]))
  }

  function Run(s: State, ops: seq<Op>): State
    decreases |ops|
  {
    if ops == [] then s else Run(Step(s, ops[0]), ops[1..])
  }

  lemma {:induction false} RunOk(s: State, ops: seq<Op>)
    requires Ok(s) && Possible(s, ops)
    ensures Ok(Run(s, ops))
    decreases |ops|
  {
    hide Ok, Step, Enabled;
    if ops != [] {
      StepOk(s, ops[0]);
      RunOk(Step(s, ops[0]), ops[1..]);
    }
  }

  lemma StartOk(s: State)
    requires s == New()
    ensures Ok(s)
  {
  }

  /**
    In every reachable state of a daemon: a connected lane that is not persistent
    and whose owner's lifetime has ended has the owner-end notice in its inbox or
    is leaving already; and no lifetime ever ends twice.
   */
  lemma {:induction false} OrphansLeave(ops: seq<Op>, id: nat, o: nat)
    requires Possible(New(), ops)
    ensures var s := Run(New(), ops);
      && (id in s.members && Follows(s.members[id], o) && o in s.ended ==>
            o in NoticesOf(s, s.members[id].session.value) || s.members[id].session.value in s.leaving)
      && Count(s.endings, o) <= 1
  {
    StartOk(New());
    hide Run, Possible, New;
    RunOk(New(), ops);
    var s := Run(New(), ops);
    if id in s.members {
      assert Bound(s, id);
    }
  }

  /** The takeover of a peer's identifier moves the lifetime on: nothing that depends on it ends. */
  lemma TakeoverKeepsLifetime(s: State, k: nat, left: Option<nat>, id: nat, room: nat -> bool)
    requires Ok(s) && (left.None? ==> Bare(s, k, None)) && id in s.members && s.members[id].peer && left != Some(id)
    requires left.Some? ==> left.value in s.members && s.members[left.value].session == Some(k)
    ensures var u := InstallPeer(s, k, left, id, room);
      && u.members[id].session == Some(k) && u.members[id].lifetime == s.members[id].lifetime
      && s.members[id].lifetime.Some? && s.members[id].lifetime.value !in u.ended
  {
    assert Alive(s, id);
    if left.Some? {
      assert Alive(s, left.value);
      DetachShape(s, left.value, room);
      assert s.members[left.value].lifetime != s.members[id].lifetime;
    }
  }

  // ---- nobody else leaves ----

  /** A lane that is told to go, or goes without being asked to, is not persistent and has lost its owner. */
  ghost predicate DueOnly(s: State, asked: set<nat>, id: nat)
    requires id in s.members
  {
    var m := s.members[id];
    m.session.Some? && !m.peer ==>
      && (m.session.value in s.leaving && m.session.value !in asked ==> !m.persistent && m.parent.Some? && m.parent.value in s.ended)
      && (forall o :: o in NoticesOf(s, m.session.value) ==> !m.persistent && m.parent == Some(o) && o in s.ended)
  }

  ghost predicate OnlyDue(s: State, asked: set<nat>) {
    && (forall k :: k in s.leaving ==> k in asked || k in s.notices)
    && (forall id :: id in s.members ==> DueOnly(s, asked, id))
  }

  lemma EndedDue(s: State, owner: Option<nat>, room: nat -> bool, asked: set<nat>)
    requires Ok(s) && OnlyDue(s, asked)
    ensures OnlyDue(Ended(s, owner, room), asked)
  {
    if owner.Some? && owner.value !in s.ended {
      var u := Ended(s, owner, room);
      var told := Followers(s.members, s.members.Keys, owner.value);
      forall k | k in told ensures exists id :: id in s.members && Follows(s.members[id], owner.value) && s.members[id].session == Some(k) {
      }
      forall id | id in u.members ensures DueOnly(u, asked, id) {
        var m := s.members[id];
        assert DueOnly(s, asked, id) && Alive(s, id);
        if m.session.Some? && m.session.value in told {
          var j :| j in s.members && Follows(s.members[j], owner.value) && s.members[j].session == m.session;
          assert j == id;
        }
      }
    }
  }

  lemma DetachDue(s: State, id: nat, room: nat -> bool, asked: set<nat>)
    requires Ok(s) && OnlyDue(s, asked)
    ensures OnlyDue(Detach(s, id, room), asked)
  {
    if id in s.members && s.members[id].session.Some? {
      EndedDue(s, s.members[id].lifetime, room, asked);
      var m, u := Ended(s, s.members[id].lifetime, room), Detach(s, id, room);
      assert m.members == s.members;
      hide Ended;
      forall j | j in u.members ensures DueOnly(u, asked, j) {
        assert DueOnly(m, asked, j);
      }
    }
  }

  lemma PublishDue(s: State, id: nat, owner: Option<nat>, persistent: bool, k: nat, asked: set<nat>)
    requires Ok(s) && OnlyDue(s, asked) && k !in s.notices
    ensures OnlyDue(Publish(s, id, owner, persistent, k), asked)
  {
    var u := Publish(s, id, owner, persistent, k);
    forall j | j in u.members ensures DueOnly(u, asked, j) {
      if j in s.members {
        assert DueOnly(s, asked, j) && Alive(s, j);
      }
    }
  }

  lemma InstallDue(s: State, k: nat, left: Option<nat>, id: nat, room: nat -> bool, asked: set<nat>)
    requires Ok(s) && OnlyDue(s, asked)
    ensures OnlyDue(InstallPeer(s, k, left, id, room), asked)
  {
    if left.Some? {
      DetachDue(s, left.value, room, asked);
    }
    hide Detach;
    var m := if left.Some? then Detach(s, left.value, room) else s;
    var u := InstallPeer(s, k, left, id, room);
    forall j | j in u.members ensures DueOnly(u, asked, j) {
      if u != s && j in m.members {
        assert DueOnly(m, asked, j);
      } else if u == s {
        assert DueOnly(s, asked, j);
      }
    }
  }

  lemma HandleDue(s: State, id: nat, owner: nat, asked: set<nat>)
    requires Ok(s) && OnlyDue(s, asked)
    ensures OnlyDue(HandleNotice(s, id, owner), asked)
  {
    var u := HandleNotice(s, id, owner);
    forall j | j in u.members ensures DueOnly(u, asked, j) {
      assert DueOnly(s, asked, j) && Alive(s, j);
      if u != s && j != id {
        assert s.members[j].session.Some? ==> s.members[j].session != s.members[id].session;
      }
    }
  }

  function AskedBy(op: Op): set<nat> { if op.LeaveOp? then {op.k} else {} }

  lemma StepDue(s: State, op: Op, asked: set<nat>)
    requires Ok(s) && OnlyDue(s, asked) && Enabled(s, op)
    ensures OnlyDue(Step(s, op), asked + AskedBy(op))
  {
    match op
    case DetachOp(id, room) => DetachDue(s, id, room, asked); assert asked + AskedBy(op) == asked;
    case PublishOp(id, owner, persistent, k) => PublishDue(s, id, owner, persistent, k, asked); assert asked + AskedBy(op) == asked;
    case InstallPeerOp(k, left, id, room) => InstallDue(s, k, left, id, room, asked); assert asked + AskedBy(op) == asked;
    case HandleNoticeOp(id, owner) => HandleDue(s, id, owner, asked); assert asked + AskedBy(op) == asked;
    case RemoteEndOp(owner, room) =>
      EndedDue(s, Some(owner), room, asked);
      assert asked + AskedBy(op) == asked;
      SameDue(Ended(s, Some(owner), room), RemoteEnd(s, owner, room), asked);
    case MeetOp => assert asked + AskedBy(op) == asked; SameDue(s, Meet(s), asked);
    case LeaveOp(k) => LeaveDue(s, k, asked);
  }

  lemma SameDue(s: State, u: State, asked: set<nat>)
    requires OnlyDue(s, asked)
    ensures u.members == s.members && u.notices == s.notices && u.leaving == s.leaving && u.ended == s.ended ==> OnlyDue(u, asked)
  {
    if u.members == s.members && u.notices == s.notices && u.leaving == s.leaving && u.ended == s.ended {
      forall id | id in u.members ensures DueOnly(u, asked, id) { assert DueOnly(s, asked, id); }
    }
  }

  lemma LeaveDue(s: State, k: nat, asked: set<nat>)
    requires OnlyDue(s, asked)
    ensures OnlyDue(Leave(s, k), asked + {k})
  {
    var u := Leave(s, k);
    forall id | id in u.members ensures DueOnly(u, asked + {k}, id) { assert DueOnly(s, asked, id); }
  }

  /** The sessions that were told to leave by somebody else. */
  function Asked(ops: seq<Op>): set<nat> { if ops == [] then {} else AskedBy(ops[0]) + Asked(ops[1..]) }

  lemma {:induction false} RunDue(s: State, ops: seq<Op>, asked: set<nat>)
    requires Ok(s) && OnlyDue(s, asked) && Possible(s, ops)
    ensures OnlyDue(Run(s, ops), asked + Asked(ops))
    decreases |ops|
  {
    hide Ok, OnlyDue, Step, Enabled;
    if ops == [] {
      assert asked + Asked(ops) == asked;
    } else {
      StepOk(s, ops[0]);
      StepDue(s, ops[0], asked);
      RunDue(Step(s, ops[0]), ops[1..], asked + AskedBy(ops[0]));
      assert asked + AskedBy(ops[0]) + Asked(ops[1..]) == asked + Asked(ops);
    }
  }

  /**
    In every reachable state of a daemon, a lane has an owner-end notice in its
    inbox, or leaves of its own accord, only if it is not persistent and the
    lifetime of its owner has ended.
   */
  lemma {:induction false} OnlyOrphansLeave(ops: seq<Op>, id: nat)
    requires Possible(New(), ops)
    requires var s := Run(New(), ops); id in s.members && !s.members[id].peer && s.members[id].session.Some?
    requires var s := Run(New(), ops); var k := s.members[id].session.value;
      NoticesOf(s, k) != {} || (k in s.leaving && k !in Asked(ops))
    ensures var s := Run(New(), ops);
      !s.members[id].persistent && s.members[id].parent.Some? && s.members[id].parent.value in s.ended
  {
    StartOk(New());
    assert OnlyDue(New(), {});
    hide Run, Possible, New;
    RunDue(New(), ops, {});
    assert {} + Asked(ops) == Asked(ops);
    var s := Run(New(), ops);
    assert DueOnly(s, Asked(ops), id);
    if NoticesOf(s, s.members[id].session.value) != {} {
      var o :| o in NoticesOf(s, s.members[id].session.value);
    }
  }

  /** The end of a connection ends the lifetime it carried, and no other; a lane stays as an entry, a peer goes. */
  lemma ConnectionEndsItsLifetime(s: State, id: nat, room: nat -> bool)
    requires Ok(s) && id in s.members && s.members[id].session.Some?
    ensures var u := Detach(s, id, room);
      && s.members[id].lifetime.Some? && u.ended == s.ended + {s.members[id].lifetime.value} && s.members[id].lifetime.value !in s.ended
      && (if s.members[id].peer then id !in u.members else id in u.members && u.members[id].session.None?)
      && forall j :: j in s.members && j != id ==> j in u.members && u.members[j] == s.members[j]
  {
    assert Alive(s, id);
  }

  /** A lane is published if and only if its owner lives or it is to persist, and its identifier is free; it then has a lifetime of its own. */
  lemma PublishedIfOwned(s: State, id: nat, owner: Option<nat>, persistent: bool, k: nat)
    requires Ok(s) && k !in s.notices
    ensures var u := Publish(s, id, owner, persistent, k);
      if (owner.None? || owner.value !in s.ended || persistent) && (id !in s.members || (!s.members[id].peer && s.members[id].session.None?)) then
        && u.members == s.members[id := Member(false, owner, persistent, Some(k), Some(s.next))] && s.next !in s.ended
        && NoticesOf(u, k) == {}
      else u == s
  {
  }

  // ---- the directory's loops over entries and remote owners ----

  /** The remote owners end one after another; which inboxes have room may change in between. */
  function EndEach(s: State, owners: seq<nat>, rooms: nat -> (nat -> bool)): State
    decreases |owners|
  {
    if owners == [] then s else
    var o := owners[|owners| - 1];
    RemoteEnd(EndEach(s, owners[..|owners| - 1], rooms), o, rooms(o))
  }

  class Owners {
    var members: map<nat, Member>
    var remotes: set<nat>
    var notices: map<nat, set<nat>>
    var leaving: set<nat>
    var ended: set<nat>
    var next: nat
    ghost var endings: map<nat, nat>

    ghost function Snapshot(): State
      reads this
    {
      State(members, remotes, notices, leaving, ended, endings, next)
    }

    constructor ()
      ensures Snapshot() == New()
    {
      members, remotes, notices, leaving, ended, next, endings := map[], {}, map[], {}, {}, 0, map[];
    }

    method TellOne(k: nat, owner: nat, room: nat -> bool)
      modifies this`notices, this`leaving
      ensures notices == if k in old(notices) && room(k) then old(notices)[k := old(notices)[k] + {owner}] else old(notices)
      ensures leaving == if k in old(notices) && room(k) then old(leaving) else old(leaving) + {k}
    {
      if k in notices && room(k) {
        notices := notices[k := notices[k] + {owner}];
      } else {
        leaving := leaving + {k};
      }
    }

    /** Tell every connected lane that follows the owner, in whatever order the map yields them. */
    method TellFollowers(owner: nat, room: nat -> bool)
      modifies this`notices, this`leaving
      ensures var told := Followers(members, members.Keys, owner);
        notices == Posted(old(notices), told, owner, room) && leaving == old(leaving) + Dropped(old(notices), told, room)
    {
      hide AllTold, Posted, Dropped, Followers, Follows;
      ghost var done: set<nat>, was, out := {}, notices, leaving;
      var all := members;
      var left := all.Keys;
      NobodyTold(all, was, out, owner, room);
      while left != {}
        invariant left !! done && left + done == all.Keys
        invariant AllTold(all, done, was, out, owner, room, notices, leaving)
        decreases |left|
      {
        var id :| id in left;
        left := left - {id};
        TellMore(all, done, was, out, id, owner, room, notices, leaving);
        if Follows(all[id], owner) {
          TellOne(all[id].session.value, owner, room);
        }
        done := done + {id};
      }
      assert done == all.Keys;
      ToldMeans(all, done, was, out, owner, room, notices, leaving);
    }

    /** An owner ends once; its followers are told then. */
    method EndOwner(owner: nat, room: nat -> bool)
      modifies this`ended, this`notices, this`leaving, this`endings
      ensures Snapshot() == Ended(old(Snapshot()), Some(owner), room)
    {
      hide Followers, Posted, Dropped;
      if owner in ended {
        return;
      }
      ended := ended + {owner};
      endings := endings[owner := Count(endings, owner) + 1];
      TellFollowers(owner, room);
    }

    /** An end reported from outside: each remote owner it matches ends and is forgotten. */
    method RemoteEnded(matches: set<nat>, rooms: nat -> (nat -> bool)) returns (ghost order: seq<nat>)
      modifies this
      ensures Snapshot() == EndEach(old(Snapshot()), order, rooms)
      ensures forall o :: o in order <==> o in matches && o in old(remotes)
    {
      hide Ended;
      order := [];
      var left := remotes;
      while left != {}
        invariant left <= old(remotes)
        invariant Snapshot() == EndEach(old(Snapshot()), order, rooms)
        invariant forall o :: o in order <==> o in matches && o in old(remotes) && o !in left
        invariant left <= remotes
        decreases |left|
      {
        var o :| o in left;
        left := left - {o};
        if o in matches {
          ghost var was := Snapshot();
          EndOwner(o, rooms(o));
          remotes := remotes - {o};
          assert (order + [o])[..|order|] == order;
          order := order + [o];
          assert Snapshot() == RemoteEnd(was, o, rooms(o));
        }
      }
    }
  }

  lemma FollowersMore(members: map<nat, Member>, ids: set<nat>, id: nat, owner: nat)
    requires id in members
    ensures Followers(members, ids + {id}, owner) ==
      Followers(members, ids, owner) + (if Follows(members[id], owner) then {members[id].session.value} else {})
  {
  }

  /** The followers among these entries have been told, and nobody else. */
  ghost predicate AllTold(members: map<nat, Member>, ids: set<nat>, was: map<nat, set<nat>>, out: set<nat>, owner: nat, room: nat -> bool,
                          notices: map<nat, set<nat>>, leaving: set<nat>)
  {
    notices == Posted(was, Followers(members, ids, owner), owner, room) && leaving == out + Dropped(was, Followers(members, ids, owner), room)
  }

  lemma NobodyTold(members: map<nat, Member>, was: map<nat, set<nat>>, out: set<nat>, owner: nat, room: nat -> bool)
    ensures AllTold(members, {}, was, out, owner, room, was, out)
  {
    assert Followers(members, {}, owner) == {};
    assert Posted(was, {}, owner, room) == was && Dropped(was, {}, room) == {};
  }

  lemma ToldMeans(members: map<nat, Member>, ids: set<nat>, was: map<nat, set<nat>>, out: set<nat>, owner: nat, room: nat -> bool,
                  notices: map<nat, set<nat>>, leaving: set<nat>)
    requires AllTold(members, ids, was, out, owner, room, notices, leaving)
    ensures notices == Posted(was, Followers(members, ids, owner), owner, room)
    ensures leaving == out + Dropped(was, Followers(members, ids, owner), room)
  {
  }

  lemma PostedMore(notices: map<nat, set<nat>>, told: set<nat>, k: nat, owner: nat, room: nat -> bool)
    ensures var p := Posted(notices, told, owner, room);
      && (k in p <==> k in notices)
      && Posted(notices, told + {k}, owner, room) == (if k in p && room(k) then p[k := p[k] + {owner}] else p)
      && Dropped(notices, told + {k}, room) == Dropped(notices, told, room) + (if k in p && room(k) then {} else {k})
  {
  }

  lemma TellMore(members: map<nat, Member>, ids: set<nat>, was: map<nat, set<nat>>, out: set<nat>, id: nat, owner: nat, room: nat -> bool,
                 notices: map<nat, set<nat>>, leaving: set<nat>)
    requires id in members && AllTold(members, ids, was, out, owner, room, notices, leaving)
    ensures if !Follows(members[id], owner) then AllTold(members, ids + {id}, was, out, owner, room, notices, leaving)
      else
        && members[id].session.Some?
        && var k := members[id].session.value;
        if k in notices && room(k) then AllTold(members, ids + {id}, was, out, owner, room, notices[k := notices[k] + {owner}], leaving)
        else AllTold(members, ids + {id}, was, out, owner, room, notices, leaving + {k})
  {
    FollowersMore(members, ids, id, owner);
    hide Posted, Dropped, Followers;
    if Follows(members[id], owner) {
      PostedMore(was, Followers(members, ids, owner), members[id].session.value, owner, room);
    }
  }
}
