/**
  The trace policy of lanes: who may see copies of what a lane sends and gets,
  and whether a match found while a message was being sent still counts when the
  send has settled.
 */
module TracePolicy {
  import opened Common

  /** `Off` is every mode that is not events or content. */
  datatype Mode = Off | Events | Content

  /** The lifetime of a parent; those of parents on other hosts are named by the other host. */
  datatype Life = Life(session: nat, token: nat, remote: bool, ended: bool)

  /** A directory entry, as far as tracing is concerned; each policy set has a version of its own. */
  datatype Entry = Entry(peer: bool, claimed: bool, attached: bool, persistent: bool, parent: Option<nat>, lifetime: Option<nat>,
                         mode: Mode, version: Option<nat>)

  datatype Directory = Directory(closing: bool, entries: map<nat, Entry>, lives: map<nat, Life>, versions: nat)

  /** A matched child: the policy it had, its parent, and the label it was addressed by. */
  datatype Ref = Ref(child: nat, mode: Mode, version: Option<nat>, session: Option<nat>, lifetime: Option<nat>, target: Option<nat>)

  predicate Lives(d: Directory, o: nat) { o in d.lives && !d.lives[o].ended }

  predicate Holds(d: Directory, id: nat, o: nat) { id in d.entries && d.entries[id].lifetime == Some(o) && d.entries[id].attached }

  /** A lane is traced for a parent that lives and, on this host, is attached. */
  function Snapshot(d: Directory, id: nat): Option<Ref> {
    if id !in d.entries || d.entries[id].peer || d.entries[id].mode.Off? || d.entries[id].parent.None? then None else
    var e, o := d.entries[id], d.entries[id].parent.value;
    if !Lives(d, o) || (!d.lives[o].remote && !Holds(d, d.lives[o].session, o)) then None
    else Some(Ref(id, e.mode, e.version, Some(d.lives[o].session), Some(d.lives[o].token), None))
  }

  /** A match counts at settlement; one made on this host is checked against the policy and parent of now. */
  predicate Eligible(d: Directory, here: nat -> bool, ref: Ref) {
    && !ref.mode.Off? && ref.session.Some? && ref.lifetime.Some?
    && (here(ref.child) ==>
          var now := Snapshot(d, ref.child);
          now.Some? && now.value.version == ref.version && now.value.lifetime == ref.lifetime)
  }

  // ---- what changes the directory ----

  function Untraced(e: Entry): Entry { e.(mode := Off, version := None) }

  /** A lifetime ends: nothing of its lanes is traced any more. */
  function EndLife(d: Directory, o: Option<nat>): Directory {
    if o.None? || !Lives(d, o.value) then d else
    d.(lives := d.lives[o.value := d.lives[o.value].(ended := true)],
       entries := map id | id in d.entries :: if d.entries[id].parent == o then Untraced(d.entries[id]) else d.entries[id])
  }

  function WithPolicy(d: Directory, id: nat, mode: Mode): Directory
    requires id in d.entries
  {
    d.(entries := d.entries[id := d.entries[id].(mode := mode, version := Some(d.versions))], versions := d.versions + 1)
  }

  /** A parent sets the policy of its lane. */
  function ConfigureCode(d: Directory, id: nat, owner: Option<nat>): int {
    if d.closing || owner.None? || !Lives(d, owner.value) then NOT_CONNECTED
    else if id !in d.entries || d.entries[id].peer || d.entries[id].parent != owner then UNKNOWN_SESSION
    else if d.entries[id].claimed then BUSY else 0
  }

  function Configure(d: Directory, id: nat, owner: Option<nat>, mode: Mode): Directory {
    if ConfigureCode(d, id, owner) != 0 then d else WithPolicy(d, id, mode)
  }

  /** A launch takes a free identifier, or, while its parent lives, that of a resting lane. */
  predicate Reservable(d: Directory, id: nat, parent: nat) {
    id in d.entries ==> Lives(d, parent) && !d.entries[id].peer && !d.entries[id].claimed && !d.entries[id].attached
  }

  function Reserve(d: Directory, id: nat, parent: nat, persistent: bool): Directory {
    if !Reservable(d, id, parent) then d else
    d.(entries := d.entries[id := Entry(false, true, false, persistent, Some(parent), None, Off, None)])
  }

  /** The launch is given up: the identifier is free again, or its lane rests as before. */
  function Withdraw(d: Directory, id: nat, resting: Option<Entry>): Directory {
    if id !in d.entries || !d.entries[id].claimed || d.entries[id].attached then d
    else if resting.None? then d.(entries := d.entries - {id})
    else d.(entries := d.entries[id := Untraced(resting.value).(peer := false, claimed := false, attached := false, lifetime := None)])
  }

  predicate Publishable(d: Directory, id: nat) {
    && !d.closing && id in d.entries && !d.entries[id].peer && d.entries[id].claimed && !d.entries[id].attached
    && (d.entries[id].parent.Some? && !Lives(d, d.entries[id].parent.value) ==> d.entries[id].persistent)
  }

  /** A lane is there: it has a lifetime of its own, and the policy it was asked for while its parent lives. */
  function Publish(d: Directory, id: nat, o: nat, token: nat, mode: Option<Mode>): Directory {
    if !Publishable(d, id) || o in d.lives then d else
    var u := d.(entries := d.entries[id := d.entries[id].(claimed := false, attached := true, lifetime := Some(o))],
                lives := d.lives[o := Life(id, token, false, false)]);
    if mode.Some? && u.entries[id].parent.Some? && Lives(d, u.entries[id].parent.value) then WithPolicy(u, id, mode.value) else u
  }

  /** A session's connection is over: a peer goes, a lane is claimed until its end is finished. */
  function Detach(d: Directory, id: nat): Directory {
    if id !in d.entries || !d.entries[id].attached then d else
    var u := EndLife(d, d.entries[id].lifetime);
    if u.entries[id].peer then u.(entries := u.entries - {id})
    else u.(entries := u.entries[id := Untraced(u.entries[id]).(attached := false, claimed := true)])
  }

  /** A lane is closing. */
  function Claim(d: Directory, id: nat): Directory {
    if id !in d.entries || !d.entries[id].attached then d else d.(entries := d.entries[id := d.entries[id].(claimed := true)])
  }

  /** The end of a lane is finished: it rests, or is forgotten. */
  function Offline(d: Directory, id: nat, forget: bool): Directory {
    if id !in d.entries || d.entries[id].peer || d.entries[id].attached then d
    else if forget then d.(entries := d.entries - {id}) else d.(entries := d.entries[id := d.entries[id].(claimed := false)])
  }

  /** A peer arrives, under a new identifier or taking over one; `was` is the identifier it leaves. */
  function Install(d: Directory, id: nat, was: Option<nat>, o: nat, token: nat): Directory {
    if (id in d.entries && !d.entries[id].peer) || was == Some(id) || o in d.lives then d else
    var u := if was.Some? then Detach(d, was.value) else d;
    if id in u.entries
    then u.(entries := u.entries[id := Entry(true, false, true, false, None, u.entries[id].lifetime, Off, None)])
    else u.(entries := u.entries[id := Entry(true, false, true, false, None, Some(o), Off, None)],
            lives := u.lives[o := Life(id, token, false, false)])
  }

  /** A parent on another host is first heard of. */
  function Remote(d: Directory, o: nat, session: nat, token: nat): Directory {
    if o in d.lives then d else d.(lives := d.lives[o := Life(session, token, true, false)])
  }

  /** A parent on another host has ended. */
  function RemoteEnded(d: Directory, o: nat): Directory { if o in d.lives && d.lives[o].remote then EndLife(d, Some(o)) else d }

  datatype Op =
    | ConfigureOp(id: nat, owner: Option<nat>, mode: Mode)
    | ReserveOp(id: nat, parent: nat, persistent: bool) | WithdrawOp(id: nat, resting: Option<Entry>)
    | PublishOp(id: nat, o: nat, token: nat, wanted: Option<Mode>)
    | DetachOp(id: nat) | ClaimOp(id: nat) | OfflineOp(id: nat, forget: bool)
    | InstallOp(id: nat, was: Option<nat>, o: nat, token: nat)
    | RemoteOp(o: nat, session: nat, token: nat) | RemoteEndOp(o: nat) | ShutOp

  function Step(d: Directory, op: Op): Directory {
    match op
    case ConfigureOp(id, owner, mode) => Configure(d, id, owner, mode)
    case ReserveOp(id, parent, persistent) => Reserve(d, id, parent, persistent)
    case WithdrawOp(id, resting) => Withdraw(d, id, resting)
    case PublishOp(id, o, token, wanted) => Publish(d, id, o, token, wanted)
    case DetachOp(id) => Detach(d, id)
    case ClaimOp(id) => Claim(d, id)
    case OfflineOp(id, forget) => Offline(d, id, forget)
    case InstallOp(id, was, o, token) => Install(d, id, was, o, token)
    case RemoteOp(o, session, token) => Remote(d, o, session, token)
    case RemoteEndOp(o) => RemoteEnded(d, o)
    case ShutOp => d.(closing := true)
  }

  function Run(d: Directory, ops: seq<Op>): Directory
    decreases |ops|
  {
    if ops == [] then d else Step(Run(d, ops[..|ops| - 1]), ops[|ops| - 1])
  }

  function Empty(): Directory { Directory(false, map[], map[], 0) }

  // ---- what every step keeps ----

  /** Only lanes with a living parent have a policy, under a version handed out before. */
  predicate EntryOk(d: Directory, e: Entry) {
    && (!e.mode.Off? ==> e.version.Some?)
    && (e.version.Some? ==> !e.peer && e.version.value < d.versions && e.parent.Some? && Lives(d, e.parent.value))
  }

  ghost predicate EntriesOk(d: Directory) { forall id :: id in d.entries ==> EntryOk(d, d.entries[id]) }

  predicate OwnLife(d: Directory, id: nat, o: nat) { o in d.lives && d.lives[o].session == id && !d.lives[o].remote }

  /** A session that lives on this host is attached under its identifier, and holds its own lifetime. */
  ghost predicate LivesOk(d: Directory) {
    && (forall id :: id in d.entries && d.entries[id].lifetime.Some? ==> OwnLife(d, id, d.entries[id].lifetime.value))
    && (forall o :: Lives(d, o) && !d.lives[o].remote ==> Holds(d, d.lives[o].session, o))
  }

  ghost predicate Ok(d: Directory) { EntriesOk(d) && LivesOk(d) }

  lemma EndLifeOk(d: Directory, o: Option<nat>)
    requires Ok(d)
    ensures Ok(EndLife(d, o))
  {
  }

  lemma DetachOk(d: Directory, id: nat)
    requires Ok(d)
    ensures Ok(Detach(d, id))
  {
    if id in d.entries && d.entries[id].attached {
      EndLifeOk(d, d.entries[id].lifetime);
      var u := EndLife(d, d.entries[id].lifetime);
      EndedHere(d, id);
      WithoutOk(u, id);
      WithEntryOk(u, id, Untraced(u.entries[id]).(attached := false, claimed := true));
    }
  }

  lemma EndedHere(d: Directory, id: nat)
    requires Ok(d) && id in d.entries
    ensures var u := EndLife(d, d.entries[id].lifetime); NobodyLives(u, id) && id in u.entries && u.entries[id].lifetime == d.entries[id].lifetime
  {
  }

  /** No living session on this host is called so. */
  ghost predicate NobodyLives(d: Directory, id: nat) { forall o :: Lives(d, o) && !d.lives[o].remote ==> d.lives[o].session != id }

  lemma WithoutOk(d: Directory, id: nat)
    requires Ok(d) && NobodyLives(d, id)
    ensures Ok(d.(entries := d.entries - {id}))
  {
    hide EntryOk;
    var u := d.(entries := d.entries - {id});
    forall k | k in u.entries ensures EntryOk(u, u.entries[k]) { SameEntry(d, u, d.entries[k]); }
  }

  lemma WithEntryOk(d: Directory, id: nat, e: Entry)
    requires Ok(d) && (NobodyLives(d, id) || (id in d.entries && e.lifetime == d.entries[id].lifetime && (d.entries[id].attached ==> e.attached)))
    requires EntryOk(d, e) && (e.lifetime.Some? ==> OwnLife(d, id, e.lifetime.value))
    ensures Ok(d.(entries := d.entries[id := e]))
  {
    hide EntryOk;
    var u := d.(entries := d.entries[id := e]);
    forall k | k in u.entries ensures EntryOk(u, u.entries[k]) { SameEntry(d, u, u.entries[k]); }
  }

  lemma SameEntry(d: Directory, u: Directory, e: Entry)
    requires EntryOk(d, e) && d.versions <= u.versions && forall o :: Lives(d, o) ==> Lives(u, o)
    ensures EntryOk(u, e)
  {
  }

  lemma RestsDead(d: Directory, id: nat)
    requires Ok(d) && (id in d.entries ==> !d.entries[id].attached)
    ensures NobodyLives(d, id)
  {
  }

  lemma NewLifeOk(d: Directory, id: nat, e: Entry, o: nat, token: nat)
    requires Ok(d) && NobodyLives(d, id) && o !in d.lives && EntryOk(d, e) && e.attached && e.lifetime == Some(o)
    ensures Ok(d.(entries := d.entries[id := e], lives := d.lives[o := Life(id, token, false, false)]))
  {
    hide EntryOk;
    var u := d.(entries := d.entries[id := e], lives := d.lives[o := Life(id, token, false, false)]);
    forall k | k in u.entries ensures EntryOk(u, u.entries[k]) { SameEntry(d, u, u.entries[k]); }
  }

  lemma PolicyOk(d: Directory, id: nat, mode: Mode)
    requires Ok(d) && id in d.entries && !d.entries[id].peer && d.entries[id].parent.Some? && Lives(d, d.entries[id].parent.value)
    ensures Ok(WithPolicy(d, id, mode))
  {
    var m := d.(versions := d.versions + 1);
    assert Ok(m);
    hide EntriesOk, LivesOk;
    EntryAt(m, id);
    WithEntryOk(m, id, d.entries[id].(mode := mode, version := Some(d.versions)));
  }

  lemma EntryAt(d: Directory, id: nat)
    requires Ok(d) && id in d.entries
    ensures EntryOk(d, d.entries[id]) && (d.entries[id].lifetime.Some? ==> OwnLife(d, id, d.entries[id].lifetime.value))
  {
  }

  lemma PublishOk(d: Directory, id: nat, o: nat, token: nat, mode: Option<Mode>)
    requires Ok(d)
    ensures Ok(Publish(d, id, o, token, mode))
  {
    hide EntriesOk, LivesOk;
    if Publishable(d, id) && o !in d.lives {
      RestsDead(d, id);
      EntryAt(d, id);
      var e := d.entries[id].(claimed := false, attached := true, lifetime := Some(o));
      NewLifeOk(d, id, e, o, token);
      var u := d.(entries := d.entries[id := e], lives := d.lives[o := Life(id, token, false, false)]);
      if mode.Some? && e.parent.Some? && Lives(d, e.parent.value) {
        PolicyOk(u, id, mode.value);
      }
    }
  }

  lemma InstallOk(d: Directory, id: nat, was: Option<nat>, o: nat, token: nat)
    requires Ok(d)
    ensures Ok(Install(d, id, was, o, token))
  {
    hide EntriesOk, LivesOk, Detach;
    if !((id in d.entries && !d.entries[id].peer) || was == Some(id) || o in d.lives) {
      var u := if was.Some? then Detach(d, was.value) else d;
      if was.Some? {
        DetachOk(d, was.value);
        DetachSame(d, was.value);
      }
      if id in u.entries {
        EntryAt(u, id);
        WithEntryOk(u, id, Entry(true, false, true, false, None, u.entries[id].lifetime, Off, None));
      } else {
        RestsDead(u, id);
        NewLifeOk(u, id, Entry(true, false, true, false, None, Some(o), Off, None), o, token);
      }
    }
  }

  lemma DetachSame(d: Directory, id: nat)
    ensures Detach(d, id).lives.Keys == d.lives.Keys && Detach(d, id).versions == d.versions
  {
  }

  lemma ReserveOk(d: Directory, id: nat, parent: nat, persistent: bool)
    requires Ok(d)
    ensures Ok(Reserve(d, id, parent, persistent))
  {
    hide EntriesOk, LivesOk;
    if Reservable(d, id, parent) {
      RestsDead(d, id);
      WithEntryOk(d, id, Entry(false, true, false, persistent, Some(parent), None, Off, None));
    }
  }

  lemma WithdrawOk(d: Directory, id: nat, resting: Option<Entry>)
    requires Ok(d)
    ensures Ok(Withdraw(d, id, resting))
  {
    hide EntriesOk, LivesOk;
    if Withdraw(d, id, resting) != d {
      RestsDead(d, id);
      WithoutOk(d, id);
      if resting.Some? {
        WithEntryOk(d, id, Untraced(resting.value).(peer := false, claimed := false, attached := false, lifetime := None));
      }
    }
  }

  lemma OfflineOk(d: Directory, id: nat, forget: bool)
    requires Ok(d)
    ensures Ok(Offline(d, id, forget)) && Ok(Claim(d, id))
  {
    hide EntriesOk, LivesOk;
    if id in d.entries {
      EntryAt(d, id);
      WithEntryOk(d, id, d.entries[id].(claimed := false));
      WithEntryOk(d, id, d.entries[id].(claimed := true));
      if !d.entries[id].attached {
        RestsDead(d, id);
        WithoutOk(d, id);
      }
    }
  }

  lemma RemoteOk(d: Directory, o: nat, session: nat, token: nat)
    requires Ok(d)
    ensures Ok(Remote(d, o, session, token)) && Ok(d.(closing := true))
  {
  }

  lemma StepOk(d: Directory, op: Op)
    requires Ok(d)
    ensures Ok(Step(d, op))
  {
    hide Ok, Configure, Reserve, Withdraw, Publish, Detach, Claim, Offline, Install, Remote, RemoteEnded;
    match op
    case ConfigureOp(id, owner, mode) => ConfigureOk(d, id, owner, mode);
    case ReserveOp(id, parent, persistent) => ReserveOk(d, id, parent, persistent);
    case WithdrawOp(id, resting) => WithdrawOk(d, id, resting);
    case PublishOp(id, o, token, wanted) => PublishOk(d, id, o, token, wanted);
    case DetachOp(id) => DetachOk(d, id);
    case ClaimOp(id) => OfflineOk(d, id, false);
    case OfflineOp(id, forget) => OfflineOk(d, id, forget);
    case InstallOp(id, was, o, token) => InstallOk(d, id, was, o, token);
    case RemoteOp(o, session, token) => RemoteOk(d, o, session, token);
    case RemoteEndOp(o) => RemoteEndedOk(d, o);
    case ShutOp => RemoteOk(d, 0, 0, 0);
  }

  lemma RemoteEndedOk(d: Directory, o: nat)
    requires Ok(d)
    ensures Ok(RemoteEnded(d, o))
  {
    hide Ok, EndLife;
    EndLifeOk(d, Some(o));
  }

  lemma ConfigureOk(d: Directory, id: nat, owner: Option<nat>, mode: Mode)
    requires Ok(d)
    ensures Ok(Configure(d, id, owner, mode))
  {
    hide Ok, WithPolicy;
    if ConfigureCode(d, id, owner) == 0 {
      PolicyOk(d, id, mode);
    }
  }

  lemma {:induction false} RunOk(ops: seq<Op>)
    ensures Ok(Run(Empty(), ops))
    decreases |ops|
  {
    hide Ok, Step;
    if ops == [] {
      EmptyOk();
    } else {
      RunOk(ops[..|ops| - 1]);
      StepOk(Run(Empty(), ops[..|ops| - 1]), ops[|ops| - 1]);
    }
  }

  lemma EmptyOk()
    ensures Ok(Empty())
  {
  }

  // ---- a match and the policy it was made under ----

  /** While the child has the version of the match, it has the mode and the parent of the match. */
  predicate Agrees(d: Directory, ref: Ref, o: nat) {
    && ref.version.Some? && ref.version.value < d.versions && !ref.mode.Off?
    && o in d.lives && ref.session == Some(d.lives[o].session) && ref.lifetime == Some(d.lives[o].token)
    && (ref.child in d.entries && d.entries[ref.child].version == ref.version ==>
          d.entries[ref.child].mode == ref.mode && d.entries[ref.child].parent == Some(o))
  }

  predicate Current(d: Directory, ref: Ref) { ref.child in d.entries && d.entries[ref.child].version == ref.version }

  /** Every policy is as it was, gone, or under a new version; lifetimes keep their names. */
  ghost predicate Follows(d: Directory, u: Directory) {
    && d.versions <= u.versions
    && (forall o :: o in d.lives ==> o in u.lives && u.lives[o].session == d.lives[o].session && u.lives[o].token == d.lives[o].token)
    && (forall id :: id in u.entries && u.entries[id].version.Some? && u.entries[id].version.value < d.versions ==>
          && id in d.entries && u.entries[id].version == d.entries[id].version
          && u.entries[id].mode == d.entries[id].mode && u.entries[id].parent == d.entries[id].parent)
  }

  lemma EndLifeFollows(d: Directory, o: Option<nat>)
    ensures Follows(d, EndLife(d, o)) && EndLife(d, o).entries.Keys == d.entries.Keys
  {
  }

  lemma DetachFollows(d: Directory, id: nat)
    ensures Follows(d, Detach(d, id))
  {
    hide EndLife;
    if id in d.entries {
      EndLifeFollows(d, d.entries[id].lifetime);
    }
  }

  lemma InstallFollows(d: Directory, id: nat, was: Option<nat>, o: nat, token: nat)
    ensures Follows(d, Install(d, id, was, o, token))
  {
    hide Detach;
    if was.Some? {
      DetachFollows(d, was.value);
    }
  }

  lemma StepFollows(d: Directory, op: Op)
    ensures Follows(d, Step(d, op))
  {
    hide Detach, Install;
    match op
    case DetachOp(id) => DetachFollows(d, id);
    case InstallOp(id, was, o, token) => InstallFollows(d, id, was, o, token);
    case _ => hide Follows; OtherFollows(d, op);
  }

  lemma OtherFollows(d: Directory, op: Op)
    requires !op.DetachOp? && !op.InstallOp?
    ensures Follows(d, Step(d, op))
  {
    hide Detach, Install;
  }

  lemma StepAgrees(d: Directory, op: Op, ref: Ref, o: nat)
    requires Agrees(d, ref, o)
    ensures Agrees(Step(d, op), ref, o) && (Current(Step(d, op), ref) ==> Current(d, ref))
  {
    hide Step;
    StepFollows(d, op);
  }

  lemma AgreesMeans(d: Directory, here: nat -> bool, ref: Ref, o: nat)
    requires Ok(d) && Agrees(d, ref, o) && here(ref.child)
    ensures Eligible(d, here, ref) <==> Current(d, ref)
    ensures Eligible(d, here, ref) <==> Snapshot(d, ref.child) == Some(ref.(target := None))
  {
  }

  lemma {:induction false} RunAgrees(d: Directory, ops: seq<Op>, ref: Ref, o: nat)
    requires Agrees(d, ref, o)
    ensures Agrees(Run(d, ops), ref, o) && (Current(Run(d, ops), ref) ==> Current(d, ref))
    decreases |ops|
  {
    hide Agrees, Current, Step;
    if ops != [] {
      RunAgrees(d, ops[..|ops| - 1], ref, o);
      StepAgrees(Run(d, ops[..|ops| - 1]), ops[|ops| - 1], ref, o);
    }
  }

  lemma {:induction false} RunMore(d: Directory, a: seq<Op>, b: seq<Op>)
    ensures Run(d, a + b) == Run(Run(d, a), b)
    decreases |b|
  {
    hide Step;
    if b == [] {
      assert a + b == a;
    } else {
      RunMore(d, a, b[..|b| - 1]);
      assert (a + b)[..|a + b| - 1] == a + b[..|b| - 1];
    }
  }

  lemma SnapshotAgrees(d: Directory, child: nat, t: Option<nat>)
    requires Ok(d) && Snapshot(d, child).Some?
    ensures Agrees(d, Snapshot(d, child).value.(target := t), d.entries[child].parent.value)
  {
  }

  /**
    Whatever happens between a match and the settlement of its send, the match
    counts if and only if it would be made again just so, with the same mode for
    the same parent; and that is so if and only if the child still has the policy
    version of the match. A match that no longer counts never counts again.
   */
  lemma MatchCountsByVersion(before: seq<Op>, between: seq<Op>, after: seq<Op>, here: nat -> bool, child: nat, t: Option<nat>)
    requires Snapshot(Run(Empty(), before), child).Some? && here(child)
    ensures var ref := Snapshot(Run(Empty(), before), child).value.(target := t);
      var d := Run(Empty(), before + between);
      && (Eligible(d, here, ref) <==> Snapshot(d, child) == Some(ref.(target := None)))
      && (Eligible(d, here, ref) <==> child in d.entries && d.entries[child].version == ref.version)
      && (Eligible(Run(Empty(), before + between + after), here, ref) ==> Eligible(d, here, ref))
  {
    hide Ok, Run, Snapshot, Eligible, Agrees;
    var d0 := Run(Empty(), before);
    SnapshotChild(d0, child);
    var ref, o := Snapshot(d0, child).value.(target := t), d0.entries[child].parent.value;
    RunOk(before);
    RunOk(before + between);
    RunOk(before + between + after);
    SnapshotAgrees(d0, child, t);
    RunMore(Empty(), before, between);
    RunMore(Empty(), before + between, after);
    RunAgrees(d0, between, ref, o);
    RunAgrees(Run(Empty(), before + between), after, ref, o);
    AgreesMeans(Run(Empty(), before + between), here, ref, o);
    AgreesMeans(Run(Empty(), before + between + after), here, ref, o);
  }

  /** A match that another host made, in whatever state it was then, counts here whatever this host's directory says. */
  lemma RemoteMatchCounts(there: Directory, d: Directory, here: nat -> bool, child: nat, t: Option<nat>)
    requires Snapshot(there, child).Some? && !here(child)
    ensures Eligible(d, here, Snapshot(there, child).value.(target := t))
  {
  }

  /** A lane is traced exactly while it has a mode: its parent then lives and, if it is on this host, is attached. */
  lemma TracedByMode(ops: seq<Op>, id: nat)
    ensures var d := Run(Empty(), ops); Snapshot(d, id).Some? <==> id in d.entries && !d.entries[id].mode.Off?
  {
    hide Run;
    RunOk(ops);
  }

  lemma SnapshotChild(d: Directory, child: nat)
    requires Snapshot(d, child).Some?
    ensures Snapshot(d, child).value.child == child && child in d.entries && d.entries[child].parent.Some?
  {
  }

  /**
    In every run of the directory: a parent that lives sets the policy of its own
    lane while the lane is not being launched or closed, and nobody else sets
    anything. The lane is then traced for that parent in that mode, under a version
    that no lane has had before; every match made earlier stops counting.
   */
  lemma ParentSetsThePolicy(ops: seq<Op>, id: nat, owner: Option<nat>, mode: Mode)
    ensures var d := Run(Empty(), ops);
      var u := Run(Empty(), ops + [ConfigureOp(id, owner, mode)]);
      if !d.closing && owner.Some? && owner.value in d.lives && !d.lives[owner.value].ended
         && id in d.entries && !d.entries[id].peer && d.entries[id].parent == owner && !d.entries[id].claimed
      then
        && ConfigureCode(d, id, owner) == 0 && u.entries == d.entries[id := d.entries[id].(mode := mode, version := Some(d.versions))]
        && (forall k :: k in d.entries ==> d.entries[k].version != Some(d.versions))
        && Snapshot(u, id) == (if mode.Off? then None
                               else Some(Ref(id, mode, Some(d.versions), Some(d.lives[owner.value].session), Some(d.lives[owner.value].token), None)))
      else ConfigureCode(d, id, owner) != 0 && u == d
  {
    hide Run;
    RunOk(ops);
    var d := Run(Empty(), ops);
    assert Run(Empty(), ops + [ConfigureOp(id, owner, mode)]) == Step(d, ConfigureOp(id, owner, mode)) by { OneMore(ops, ConfigureOp(id, owner, mode)); }
    if ConfigureCode(d, id, owner) == 0 {
      EntryAt(d, id);
      SetPolicyShows(d, id, owner.value, mode);
      hide Ok;
      VersionsAreNew(d);
    }
  }

  lemma OneMore(ops: seq<Op>, op: Op)
    ensures Run(Empty(), ops + [op]) == Step(Run(Empty(), ops), op)
  {
    assert (ops + [op])[..|ops|] == ops;
  }

  lemma VersionsAreNew(d: Directory)
    requires Ok(d)
    ensures forall k :: k in d.entries ==> d.entries[k].version != Some(d.versions)
  {
    forall k | k in d.entries ensures d.entries[k].version != Some(d.versions) { EntryAt(d, k); }
  }

  lemma SetPolicyShows(d: Directory, id: nat, o: nat, mode: Mode)
    requires Ok(d) && id in d.entries && !d.entries[id].peer && d.entries[id].parent == Some(o) && Lives(d, o)
    ensures Snapshot(WithPolicy(d, id, mode), id) ==
      if mode.Off? then None else Some(Ref(id, mode, Some(d.versions), Some(d.lives[o].session), Some(d.lives[o].token), None))
  {
    var u := WithPolicy(d, id, mode);
    if !d.lives[o].remote {
      assert Holds(d, d.lives[o].session, o);
      assert Holds(u, d.lives[o].session, o);
    }
  }

  /** A lane that appears has the policy it was asked for if and only if its parent still lives then; and a lifetime of its own. */
  lemma PublishedWithPolicy(d: Directory, id: nat, o: nat, token: nat, wanted: Mode)
    requires Ok(d) && Publishable(d, id) && o !in d.lives && !wanted.Off?
    ensures var u := Publish(d, id, o, token, Some(wanted));
      && u.entries[id].attached && !u.entries[id].claimed && u.entries[id].lifetime == Some(o) && o in u.lives && !u.lives[o].ended
      && (d.entries[id].parent.Some? && Lives(d, d.entries[id].parent.value) ==> u.entries[id].mode == wanted && u.entries[id].version == Some(d.versions))
      && (!(d.entries[id].parent.Some? && Lives(d, d.entries[id].parent.value)) ==> u.entries[id].mode.Off?)
  {
    EntryAt(d, id);
  }

  /** The directory's tables and what is done to them under its lock. */
  class Policies {
    var closing: bool
    var entries: map<nat, Entry>
    var lives: map<nat, Life>
    var versions: nat

    function Now(): Directory
      reads this
    {
      Directory(closing, entries, lives, versions)
    }

    constructor ()
      ensures Now() == Empty()
    {
      closing, entries, lives, versions := false, map[], map[], 0;
    }

    /** End a lifetime and go through the entries for its lanes. */
    method EndOwner(o: Option<nat>)
      modifies this`entries, this`lives
      ensures Now() == EndLife(old(Now()), o)
    {
      if o.None? || o.value !in lives || lives[o.value].ended {
        return;
      }
      lives := lives[o.value := lives[o.value].(ended := true)];
      ghost var was := entries;
      var left := entries.Keys;
      while left != {}
        invariant left <= was.Keys == entries.Keys
        invariant forall id :: id in was ==>
          entries[id] == if id !in left && was[id].parent == o then Untraced(was[id]) else was[id]
        modifies this`entries
        decreases |left|
      {
        var id :| id in left;
        left := left - {id};
        if entries[id].parent == o {
          entries := entries[id := Untraced(entries[id])];
        }
      }
      assert entries == EndLife(old(Now()), o).entries;
    }

    method SetPolicy(id: nat, mode: Mode)
      requires id in entries
      modifies this`entries, this`versions
      ensures Now() == WithPolicy(old(Now()), id, mode)
    {
      entries := entries[id := entries[id].(mode := mode, version := Some(versions))];
      versions := versions + 1;
    }

    /** The request of a parent to change what it sees of a lane. */
    method ConfigureTrace(id: nat, owner: Option<nat>, mode: Mode) returns (code: int)
      modifies this`entries, this`versions
      ensures code == ConfigureCode(old(Now()), id, owner) && Now() == Configure(old(Now()), id, owner, mode)
    {
      if closing || owner.None? || owner.value !in lives || lives[owner.value].ended {
        code := NOT_CONNECTED;
      } else if id !in entries || entries[id].peer || entries[id].parent != owner {
        code := UNKNOWN_SESSION;
      } else if entries[id].claimed {
        code := BUSY;
      } else {
        SetPolicy(id, mode);
        code := 0;
      }
    }

    /** A launched lane becomes visible. */
    method PublishLane(id: nat, o: nat, token: nat, wanted: Option<Mode>) returns (ok: bool)
      requires o !in lives
      modifies this
      ensures ok <==> Publishable(old(Now()), id)
      ensures Now() == Publish(old(Now()), id, o, token, wanted)
    {
      ok := Publishable(Now(), id);
      if !ok {
        return;
      }
      var parent := entries[id].parent;
      var traced := wanted.Some? && parent.Some? && parent.value in lives && !lives[parent.value].ended;
      entries := entries[id := entries[id].(claimed := false, attached := true, lifetime := Some(o))];
      lives := lives[o := Life(id, token, false, false)];
      if traced {
        SetPolicy(id, wanted.value);
      }
    }

    /** The connection of a session is over. */
    method DetachSession(id: nat)
      modifies this
      ensures Now() == Detach(old(Now()), id)
    {
      if id !in entries || !entries[id].attached {
        return;
      }
      EndOwner(entries[id].lifetime);
      if entries[id].peer {
        entries := entries - {id};
      } else {
        entries := entries[id := Untraced(entries[id]).(attached := false, claimed := true)];
      }
    }
  }
}
