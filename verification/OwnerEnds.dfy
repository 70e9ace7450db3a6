/**
  The path of a remote spawn: origin daemon, its link, the hub's registry, the
  destination's link, destination daemon. Every hop is first in, first out, and
  a link may be lost at any moment. What is proved is that a spawn never reaches
  the destination behind the end of its owner, and that a remote child of an
  ended owner is ended too or about to be.
 */
module OwnerEnds {
  import opened Common

  /** Frames of one attachment of the origin; `Closed` and `HostEnd` end everything that came through it. */
  datatype Msg = Spawn(owner: nat, child: nat) | OwnerEnd(owner: nat) | Closed | HostEnd

  /**
    The hops, from the destination back to the origin: frames on the wire to the
    destination, the destination link's inbox at the hub, the registry's inbox,
    the origin's wire, and the origin link's queue. `up` is the origin's link
    not having been given up, `lostA` the hub having noticed that it is gone, `attached` and
    `known` the registry still listing origin and destination, `lostB` the loss
    of the destination's link and `cleaned` the destination having acted on it.
   */
  datatype State = State(wireB: seq<Msg>, inboxB: seq<Msg>, registry: seq<Msg>, wireA: seq<Msg>, queueA: seq<Msg>,
                         up: bool, lostA: bool, attached: bool, known: bool, lostB: bool, cleaned: bool,
                         ended: set<nat>, told: set<nat>, children: map<nat, nat>, over: set<nat>)

  function New(): State { State([], [], [], [], [], true, false, true, true, false, false, {}, {}, map[], {}) }

  /** The frames that can still reach the destination, first to last. */
  function Path(s: State): seq<Msg> {
    s.wireB + s.inboxB + if s.attached then s.registry + s.wireA + s.queueA else []
  }

  // ---- the origin ----

  /** A spawn is forwarded only while its owner lives; the destination is remembered before the call is queued. */
  function Forward(s: State, owner: nat, child: nat, room: bool): State {
    if s.lostA || owner in s.ended then s else
    var s1 := s.(told := s.told + {owner});
    if room then s1.(queueA := s.queueA + [Spawn(owner, child)]) else s1.(up := false)
  }

  /** An owner ends: its end is queued behind everything forwarded for it, or the link is given up. */
  function End(s: State, owner: nat, room: bool): State {
    if owner in s.ended then s else
    var s1 := s.(ended := s.ended + {owner});
    if owner !in s.told || s.lostA then s1
    else if room then s1.(queueA := s.queueA + [OwnerEnd(owner)]) else s1.(up := false)
  }

  /**
    The origin's link writes the next frame, even after it was given up, until
    the loss is noticed. A spawn may be refused on its own; an end that cannot be
    written gives the link up.
   */
  function SendA(s: State, ok: bool): State {
    if s.lostA || s.queueA == [] then s else
    var s1 := s.(queueA := s.queueA[1..]);
    if ok then s1.(wireA := s.wireA + [s.queueA[0]]) else if s.queueA[0].Spawn? then s1 else s1.(up := false)
  }

  function GiveUpA(s: State): State { s.(up := false) }

  /** The origin's link is lost: some of what was on the wire still arrives, then the loss itself. */
  function LoseA(s: State, arrived: nat): State {
    if s.lostA then s else
    s.(up := false, lostA := true, queueA := [], wireA := (if arrived <= |s.wireA| then s.wireA[..arrived] else s.wireA) + [Closed])
  }

  // ---- the hub ----

  function ReceiveA(s: State): State {
    if s.wireA == [] then s else s.(wireA := s.wireA[1..], registry := s.registry + [s.wireA[0]])
  }

  /** The origin leaves the registry and every other link is told; one that cannot be told is closed. */
  function Remove(s: State, room: bool): State {
    if !s.attached then s else
    var s1 := s.(attached := false);
    if !s.known then s1 else if room then s1.(inboxB := s.inboxB + [HostEnd]) else s1.(lostB := true)
  }

  /** One event of the registry; what comes from a link no longer listed is ignored. */
  function Route(s: State, room: bool): State {
    if s.registry == [] then s else
    var s1 := s.(registry := s.registry[1..]);
    match s.registry[0]
    case Closed => Remove(s1, room)
    case m =>
      if !s.attached || !s.known then s1
      else if room then s1.(inboxB := s.inboxB + [m])
      else s1.(known := false, lostB := true)
  }

  /** The destination's link writes the next frame; a spawn may be refused on its own, an end that cannot be sent closes the link. */
  function SendB(s: State, ok: bool): State {
    if s.inboxB == [] then s else
    var s1 := s.(inboxB := s.inboxB[1..]);
    if ok && !s.lostB then s1.(wireB := s.wireB + [s.inboxB[0]])
    else if s.inboxB[0].Spawn? then s1 else s1.(lostB := true)
  }

  // ---- the destination ----

  /** One frame: a spawn makes a child of the owner it names, unless refused; an end ends the children it matches. */
  function Apply(s: State, admitted: bool): State {
    if s.wireB == [] || s.cleaned then s else
    var s1 := s.(wireB := s.wireB[1..]);
    match s.wireB[0]
    case Spawn(owner, child) => if admitted then s1.(children := s.children[child := owner], over := s.over - {child}) else s1
    case OwnerEnd(owner) => s1.(over := s.over + set c | c in s.children && s.children[c] == owner)
    case Closed => s1
    case HostEnd => s1.(over := s.over + s.children.Keys)
  }

  function LoseB(s: State): State { s.(lostB := true) }

  function ForgetB(s: State): State { if s.lostB then s.(known := false) else s }

  /** The destination's link has ended: every remote owner it brought has. */
  function CleanUp(s: State): State { if !s.lostB then s else s.(cleaned := true, over := s.over + s.children.Keys) }

  // ---- what every step keeps ----

  predicate Ends(m: Msg, owner: nat) { m == OwnerEnd(owner) || m == Closed || m == HostEnd }

  ghost predicate EndIn(path: seq<Msg>, from: nat, owner: nat) { exists j :: from <= j < |path| && Ends(path[j], owner) }

  /** No spawn behind the end of its owner. */
  ghost predicate InOrder(path: seq<Msg>) {
    forall i, j :: 0 <= i < j < |path| && path[j].Spawn? ==> !Ends(path[i], path[j].owner)
  }

  /** The origin has given its link up and the hub is still to notice. */
  predicate Losing(s: State) { !s.up && !s.lostA && s.attached }

  ghost predicate Announced(p: seq<Msg>, told: set<nat>, ended: set<nat>) {
    && (forall i :: 0 <= i < |p| && p[i].Spawn? ==> p[i].owner in told)
    && (forall i :: 0 <= i < |p| && p[i].OwnerEnd? ==> p[i].owner in ended)
  }

  /** Every spawn of an ended owner on the path is followed by an end. */
  ghost predicate Covered(p: seq<Msg>, ended: set<nat>) {
    forall i :: 0 <= i < |p| && p[i].Spawn? && p[i].owner in ended ==> EndIn(p, i, p[i].owner)
  }

  /** Every child of an ended owner is over, or an end is on the path. */
  ghost predicate Awaited(p: seq<Msg>, s: State) {
    forall c :: c in s.children && c !in s.over && s.children[c] in s.ended ==> EndIn(p, 0, s.children[c])
  }

  predicate Last(p: seq<Msg>, m: Msg) { |p| > 0 && p[|p| - 1] == m }

  predicate AllOver(s: State) { forall c :: c in s.children ==> c in s.over }

  predicate Placed(s: State) {
    && Closed !in s.wireB && Closed !in s.inboxB
    && HostEnd !in s.registry && HostEnd !in s.wireA && HostEnd !in s.queueA && Closed !in s.queueA
    && (Closed in s.registry || Closed in s.wireA ==> s.lostA)
    && (HostEnd in s.wireB || HostEnd in s.inboxB ==> !s.attached)
    && (s.lostA ==> !s.up && s.queueA == []) && (!s.known || s.cleaned ==> s.lostB)
  }

  /** As long as the destination's link stands. */
  ghost predicate Sound(s: State) {
    var p := Path(s);
    && (Losing(s) || (Covered(p, s.ended) && Awaited(p, s)))
    && (s.lostA && s.attached ==> Last(p, Closed))
    && (!s.attached ==> Last(p, HostEnd) || (p == [] && AllOver(s)))
  }

  ghost predicate Ok(s: State) {
    && Placed(s) && InOrder(Path(s)) && Announced(Path(s), s.told, s.ended)
    && (forall c :: c in s.children && c !in s.over ==> s.children[c] in s.told)
    && (s.cleaned ==> AllOver(s)) && (!s.lostB ==> Sound(s))
  }

  /** Appending to the path. */
  lemma Appended(p: seq<Msg>, m: Msg, told: set<nat>, ended: set<nat>)
    requires InOrder(p) && Announced(p, told, ended) && Covered(p, ended)
    requires m.Spawn? ==> m.owner in told && m.owner !in ended && Closed !in p && HostEnd !in p
    requires m.OwnerEnd? ==> m.owner in ended
    ensures InOrder(p + [m]) && Announced(p + [m], told, ended) && Covered(p + [m], ended)
    ensures forall o: nat :: EndIn(p, 0, o) || Ends(m, o) ==> EndIn(p + [m], 0, o)
  {
    var q := p + [m];
    assert forall i :: 0 <= i < |p| ==> q[i] == p[i];
    forall i | 0 <= i < |q| && q[i].Spawn? && q[i].owner in ended ensures EndIn(q, i, q[i].owner) {
      var j :| i <= j < |p| && Ends(p[j], p[i].owner);
      assert Ends(q[j], q[i].owner);
    }
    forall o: nat | EndIn(p, 0, o) || Ends(m, o) ensures EndIn(q, 0, o) {
      if EndIn(p, 0, o) {
        var j :| 0 <= j < |p| && Ends(p[j], o);
        assert Ends(q[j], o);
      } else {
        assert Ends(q[|p|], o);
      }
    }
  }

  /** A path that ends in an end for everybody covers everything on it. */
  lemma LastCovers(p: seq<Msg>, m: Msg, ended: set<nat>)
    requires Last(p, m) && (m == Closed || m == HostEnd)
    ensures Covered(p, ended) && (forall o: nat :: EndIn(p, 0, o))
  {
    forall i, o: nat | 0 <= i < |p| ensures EndIn(p, i, o) {
      assert Ends(p[|p| - 1], o);
    }
  }

  /** The frames up to some point keep their order. */
  lemma Prefix(p: seq<Msg>, n: nat, told: set<nat>, ended: set<nat>)
    requires n <= |p| && InOrder(p) && Announced(p, told, ended)
    ensures InOrder(p[..n]) && Announced(p[..n], told, ended)
  {
  }

  function Without(p: seq<Msg>, k: nat): seq<Msg>
    requires k < |p|
  {
    p[..k] + p[k + 1..]
  }

  /** One frame is left out; if it was no end, whatever was covered still is. */
  lemma LeftOut(p: seq<Msg>, k: nat, told: set<nat>, ended: set<nat>)
    requires k < |p| && InOrder(p) && Announced(p, told, ended)
    ensures InOrder(Without(p, k)) && Announced(Without(p, k), told, ended)
    ensures p[k].Spawn? && Covered(p, ended) ==> Covered(Without(p, k), ended)
    ensures forall o: nat :: EndIn(p, 0, o) && !Ends(p[k], o) ==> EndIn(Without(p, k), 0, o)
  {
    var q := Without(p, k);
    assert forall i :: 0 <= i < |q| ==> q[i] == p[if i < k then i else i + 1];
    if p[k].Spawn? && Covered(p, ended) {
      forall i | 0 <= i < |q| && q[i].Spawn? && q[i].owner in ended ensures EndIn(q, i, q[i].owner) {
        var at := if i < k then i else i + 1;
        assert EndIn(p, at, p[at].owner);
        var j :| at <= j < |p| && Ends(p[j], p[at].owner);
        assert j != k && Ends(q[if j < k then j else j - 1], q[i].owner);
      }
    }
    forall o: nat | EndIn(p, 0, o) && !Ends(p[k], o) ensures EndIn(q, 0, o) {
      var j :| 0 <= j < |p| && Ends(p[j], o);
      assert j != k && Ends(q[if j < k then j else j - 1], o);
    }
  }

  // ---- the steps ----

  /** Moving a frame from one hop to the next leaves the path as it is. */
  lemma SamePath(s: State, u: State)
    requires Ok(s) && Path(u) == Path(s) && Placed(u) && u == s.(wireB := u.wireB, inboxB := u.inboxB, registry := u.registry, wireA := u.wireA, queueA := u.queueA)
    ensures Ok(u)
  {
  }

  lemma QueuePath(s: State)
    requires s.queueA != [] && s.attached
    ensures var k, u := |s.wireB + s.inboxB + s.registry + s.wireA|, s.(queueA := s.queueA[1..]);
      && k < |Path(s)| && Path(s)[k] == s.queueA[0] && Path(u) == Without(Path(s), k)
      && Path(u.(wireA := s.wireA + [s.queueA[0]])) == Path(s)
  {
    hide Without;
    var a, b := s.wireB + s.inboxB + s.registry + s.wireA, s.queueA;
    CutOut(a, b, []);
    assert Path(s) == a + (b + []) && Path(s.(queueA := b[1..])) == a + (b[1..] + []);
    assert Path(s.(queueA := b[1..], wireA := s.wireA + [b[0]])) == a + [b[0]] + (b[1..] + []);
  }

  lemma SendAOk(s: State, ok: bool)
    requires Ok(s)
    ensures Ok(SendA(s, ok))
  {
    hide InOrder, Announced, Sound, Path, Without;
    if !s.lostA && s.queueA != [] {
      var u := SendA(s, ok);
      if !s.attached {
        UnlistedPath(s, u);
        SamePath(s.(up := u.up), u) by { GiveUpAOk(s); }
      } else {
        QueuePath(s);
        if ok {
          SamePath(s, u);
        } else {
          var k := |s.wireB + s.inboxB + s.registry + s.wireA|;
          PathDepends(s.(queueA := s.queueA[1..]), u);
          LeftOut(Path(s), k, s.told, s.ended);
          if !u.lostB {
            UnsentSound(s, u, k);
          }
        }
      }
    }
  }

  /** What a link that is no longer listed has still to send reaches nobody. */
  lemma UnlistedPath(s: State, u: State)
    requires !s.attached && !u.attached && u.wireB == s.wireB && u.inboxB == s.inboxB
    ensures Path(u) == Path(s) && Path(s.(up := u.up)) == Path(s)
  {
  }

  lemma UnsentSound(s: State, u: State, k: nat)
    requires Sound(s) && s.attached && !s.lostA && k < |Path(s)| && Path(u) == Without(Path(s), k)
    requires u == s.(queueA := u.queueA, up := u.up) && (u.up ==> s.up) && (Path(s)[k].Spawn? || !u.up)
    requires InOrder(Path(s)) && Announced(Path(s), s.told, s.ended)
    ensures Sound(u)
  {
    LeftOut(Path(s), k, s.told, s.ended);
  }

  lemma GiveUpAOk(s: State)
    requires Ok(s)
    ensures Ok(GiveUpA(s))
  {
    assert Path(GiveUpA(s)) == Path(s);
    hide InOrder, Announced, Path, Covered, Awaited;
  }

  lemma ReceiveAOk(s: State)
    requires Ok(s)
    ensures Ok(ReceiveA(s))
  {
    if s.wireA != [] {
      assert s.registry + [s.wireA[0]] + s.wireA[1..] == s.registry + s.wireA;
      assert Path(ReceiveA(s)) == Path(s);
      hide InOrder, Sound, Announced, AllOver, Path;
      SamePath(s, ReceiveA(s));
    }
  }

  lemma ForwardOk(s: State, owner: nat, child: nat, room: bool)
    requires Ok(s)
    ensures Ok(Forward(s, owner, child, room))
  {
    var u := Forward(s, owner, child, room);
    if !s.lostA && owner !in s.ended {
      if room && s.attached {
        assert Path(u) == Path(s) + [Spawn(owner, child)];
        AppendedOk(s, u, Spawn(owner, child));
      } else {
        assert Path(u) == Path(s);
      }
    }
  }

  lemma AppendedOk(s: State, u: State, m: Msg)
    requires Ok(s) && !s.lostA && s.attached && Path(u) == Path(s) + [m] && m != Closed && m != HostEnd
    requires u == s.(queueA := u.queueA, told := u.told, ended := u.ended) && u.queueA == s.queueA + [m] && s.told <= u.told
    requires if m.Spawn? then m.owner in u.told && m.owner !in s.ended && u.ended == s.ended else u.ended == s.ended + {m.owner}
    ensures Ok(u)
  {
    var p := Path(s);
    assert Closed !in p && HostEnd !in p;
    OrderedMore(p, m, s.told, s.ended, u.told, u.ended);
    if !s.lostB && s.up {
      if m.Spawn? {
        Appended(p, m, u.told, u.ended);
      } else {
        EndCovers(p, m.owner, s.ended);
        EndAwaited(s, u, m.owner);
      }
    }
  }

  lemma OrderedMore(p: seq<Msg>, m: Msg, told: set<nat>, ended: set<nat>, told': set<nat>, ended': set<nat>)
    requires InOrder(p) && Announced(p, told, ended) && told <= told' && ended <= ended' && m != Closed && m != HostEnd
    requires m.Spawn? ==> m.owner in told' && m.owner !in ended && Closed !in p && HostEnd !in p
    requires m.OwnerEnd? ==> m.owner in ended'
    ensures InOrder(p + [m]) && Announced(p + [m], told', ended')
  {
  }

  /** The end of an owner, put last, covers all its spawns. */
  lemma EndCovers(p: seq<Msg>, owner: nat, ended: set<nat>)
    requires Covered(p, ended)
    ensures Covered(p + [OwnerEnd(owner)], ended + {owner})
  {
    var q := p + [OwnerEnd(owner)];
    forall i | 0 <= i < |q| && q[i].Spawn? && q[i].owner in ended + {owner} ensures EndIn(q, i, q[i].owner) {
      if q[i].owner == owner {
        assert Ends(q[|p|], owner);
      } else {
        assert EndIn(p, i, p[i].owner);
        var j :| i <= j < |p| && Ends(p[j], p[i].owner);
        assert Ends(q[j], q[i].owner);
      }
    }
  }

  lemma EndAwaited(s: State, u: State, owner: nat)
    requires Awaited(Path(s), s) && u.children == s.children && u.over == s.over && u.ended == s.ended + {owner}
    ensures Awaited(Path(s) + [OwnerEnd(owner)], u)
  {
    var p := Path(s);
    var q := p + [OwnerEnd(owner)];
    forall c | c in u.children && c !in u.over && u.children[c] in u.ended ensures EndIn(q, 0, u.children[c]) {
      if u.children[c] == owner {
        assert Ends(q[|p|], owner);
      } else {
        assert EndIn(p, 0, s.children[c]);
        var j :| 0 <= j < |p| && Ends(p[j], s.children[c]);
        assert Ends(q[j], u.children[c]);
      }
    }
  }

  lemma EndOk(s: State, owner: nat, room: bool)
    requires Ok(s)
    ensures Ok(End(s, owner, room))
  {
    var u := End(s, owner, room);
    if owner !in s.ended {
      if owner in s.told && !s.lostA && room && s.attached {
        assert Path(u) == Path(s) + [OwnerEnd(owner)];
        AppendedOk(s, u, OwnerEnd(owner));
      } else {
        assert Path(u) == Path(s);
        EndedOk(s, u, owner);
      }
    }
  }

  /** The end is not put on the path: nothing depends on it, or the path ends in an end for everybody. */
  lemma EndedOk(s: State, u: State, owner: nat)
    requires Ok(s) && owner !in s.ended && Path(u) == Path(s) && Placed(u)
    requires u == s.(ended := s.ended + {owner}, up := u.up, queueA := u.queueA) && (u.up ==> s.up)
    requires owner !in s.told || !s.attached || !u.up || s.lostA
    ensures Ok(u)
  {
    var p := Path(s);
    if !s.lostB && !Losing(u) {
      if s.attached && u.lostA {
        LastCovers(p, Closed, u.ended);
      } else if !s.attached && p != [] {
        LastCovers(p, HostEnd, u.ended);
      }
    }
  }

  lemma LoseAOk(s: State, arrived: nat)
    requires Ok(s)
    ensures Ok(LoseA(s, arrived))
  {
    if !s.lostA {
      var u, p := LoseA(s, arrived), Path(s);
      if s.attached {
        var n := |s.wireB + s.inboxB + s.registry| + if arrived <= |s.wireA| then arrived else |s.wireA|;
        assert Path(u) == p[..n] + [Closed];
        Prefix(p, n, s.told, s.ended);
        ClosedLast(p[..n], Closed, s.told, s.ended);
        LastCovers(Path(u), Closed, s.ended);
      } else {
        assert Path(u) == p;
      }
    }
  }

  lemma ClosedLast(p: seq<Msg>, m: Msg, told: set<nat>, ended: set<nat>)
    requires InOrder(p) && Announced(p, told, ended) && (m == Closed || m == HostEnd)
    ensures InOrder(p + [m]) && Announced(p + [m], told, ended)
  {
  }

  lemma RemoveOk(s: State, room: bool)
    requires Ok(s)
    ensures Ok(Remove(s, room))
  {
    if s.attached {
      var u, p := Remove(s, room), Path(s);
      var n := |s.wireB + s.inboxB|;
      assert p[..n] == s.wireB + s.inboxB;
      Prefix(p, n, s.told, s.ended);
      if s.known && room {
        assert Path(u) == p[..n] + [HostEnd];
        ClosedLast(p[..n], HostEnd, s.told, s.ended);
        LastCovers(Path(u), HostEnd, s.ended);
      } else {
        assert Path(u) == p[..n];
      }
    }
  }

  /** The path depends on the hops and on the origin being listed. */
  lemma PathDepends(s: State, u: State)
    requires u.wireB == s.wireB && u.inboxB == s.inboxB && u.registry == s.registry && u.wireA == s.wireA && u.queueA == s.queueA
    requires u.attached == s.attached
    ensures Path(u) == Path(s)
  {
  }

  lemma CutOut(a: seq<Msg>, b: seq<Msg>, c: seq<Msg>)
    requires b != []
    ensures |a| < |a + (b + c)| && (a + (b + c))[|a|] == b[0] && a + (b[1..] + c) == Without(a + (b + c), |a|)
    ensures a + [b[0]] + (b[1..] + c) == a + (b + c)
  {
    var p := a + (b + c);
    assert p[..|a|] == a && p[|a| + 1..] == b[1..] + c;
  }

  lemma RoutePath(s: State)
    requires s.registry != [] && s.attached
    ensures var k, m := |s.wireB + s.inboxB|, s.registry[0];
      && k < |Path(s)| && Path(s)[k] == m && Path(s.(registry := s.registry[1..])) == Without(Path(s), k)
      && Path(s.(registry := s.registry[1..], inboxB := s.inboxB + [m])) == Path(s)
  {
    hide Without;
    var a, b, c := s.wireB + s.inboxB, s.registry, s.wireA + s.queueA;
    CutOut(a, b, c);
    assert Path(s) == a + (b + c) && Path(s.(registry := b[1..])) == a + (b[1..] + c);
    assert Path(s.(registry := b[1..], inboxB := s.inboxB + [b[0]])) == a + [b[0]] + (b[1..] + c);
  }

  lemma RouteOk(s: State, room: bool)
    requires Ok(s)
    ensures Ok(Route(s, room))
  {
    hide InOrder, Announced, Sound, Path, Without;
    if s.registry != [] {
      if !s.attached {
        Unlisted(s, Route(s, room));
      } else if s.registry[0] == Closed {
        ClosedRouted(s, room);
      } else {
        ListedRouted(s, room);
      }
    }
  }

  /** What reaches the registry from a link it no longer lists changes nothing. */
  lemma Unlisted(s: State, u: State)
    requires Ok(s) && !s.attached && Placed(u) && u == s.(registry := u.registry)
    ensures Ok(u)
  {
    assert Path(u) == Path(s);
    hide InOrder, Announced, Path;
  }

  lemma ListedRouted(s: State, room: bool)
    requires Ok(s) && s.attached && s.registry != [] && s.registry[0] != Closed
    ensures Ok(Route(s, room))
  {
    hide InOrder, Announced, Sound, Path, Without;
    var u, m, k := Route(s, room), s.registry[0], |s.wireB + s.inboxB|;
    RoutePath(s);
    if s.known && room {
      SamePath(s, u);
    } else {
      PathDepends(s.(registry := s.registry[1..]), u);
      LeftOut(Path(s), k, s.told, s.ended);
    }
  }

  /** The loss of the origin's link reaches the registry: whatever else came from it is behind. */
  lemma ClosedRouted(s: State, room: bool)
    requires Ok(s) && s.attached && s.registry != [] && s.registry[0] == Closed
    ensures Ok(Remove(s.(registry := s.registry[1..]), room))
  {
    var s1 := s.(registry := s.registry[1..]);
    var u, p, n := Remove(s1, room), Path(s), |s.wireB + s.inboxB|;
    assert p[..n] == s.wireB + s.inboxB;
    Prefix(p, n, s.told, s.ended);
    if s.known && room {
      assert Path(u) == p[..n] + [HostEnd];
      ClosedLast(p[..n], HostEnd, s.told, s.ended);
      LastCovers(Path(u), HostEnd, s.ended);
    } else {
      assert Path(u) == p[..n];
    }
  }

  lemma DropPath(s: State)
    requires s.inboxB != []
    ensures var u := s.(inboxB := s.inboxB[1..]);
      |s.wireB| < |Path(s)| && Path(s)[|s.wireB|] == s.inboxB[0] && Path(u) == Without(Path(s), |s.wireB|)
    ensures Path(s.(inboxB := s.inboxB[1..], wireB := s.wireB + [s.inboxB[0]])) == Path(s)
  {
    hide Without;
    var a, b, c := s.wireB, s.inboxB, if s.attached then s.registry + s.wireA + s.queueA else [];
    CutOut(a, b, c);
    assert Path(s) == a + (b + c) && Path(s.(inboxB := b[1..])) == a + (b[1..] + c);
    assert Path(s.(inboxB := b[1..], wireB := a + [b[0]])) == a + [b[0]] + (b[1..] + c);
  }

  lemma SendBOk(s: State, ok: bool)
    requires Ok(s)
    ensures Ok(SendB(s, ok))
  {
    hide InOrder, Announced, Sound, Path, Without;
    if s.inboxB != [] {
      var u := SendB(s, ok);
      DropPath(s);
      if ok && !s.lostB {
        SamePath(s, u);
      } else {
        PathDepends(s.(inboxB := s.inboxB[1..]), u);
        LeftOut(Path(s), |s.wireB|, s.told, s.ended);
        if !u.lostB {
          DroppedSound(s, u, |s.wireB|);
        }
      }
    }
  }

  lemma DroppedSound(s: State, u: State, k: nat)
    requires Sound(s) && k < |Path(s)| && Path(s)[k].Spawn? && Path(u) == Without(Path(s), k) && u == s.(inboxB := u.inboxB)
    requires InOrder(Path(s)) && Announced(Path(s), s.told, s.ended)
    ensures Sound(u)
  {
    LeftOut(Path(s), k, s.told, s.ended);
  }

  lemma TakenPath(s: State)
    requires s.wireB != []
    ensures Path(s) != [] && Path(s)[0] == s.wireB[0] && Path(s.(wireB := s.wireB[1..])) == Path(s)[1..] == Without(Path(s), 0)
  {
  }

  lemma ApplyOk(s: State, admitted: bool)
    requires Ok(s)
    ensures Ok(Apply(s, admitted))
  {
    hide InOrder, Announced, Sound, Path, Without;
    if s.wireB != [] && !s.cleaned {
      var u, p := Apply(s, admitted), Path(s);
      TakenPath(s);
      PathDepends(s.(wireB := s.wireB[1..]), u);
      LeftOut(p, 0, s.told, s.ended);
      FirstTold(p, s.told, s.ended);
      if !s.lostB {
        AppliedSound(s, u, admitted);
      }
    }
  }

  lemma FirstTold(p: seq<Msg>, told: set<nat>, ended: set<nat>)
    requires Announced(p, told, ended) && p != []
    ensures p[0].Spawn? ==> p[0].owner in told
  {
  }

  /** What was covered behind the first frame still is once that frame is taken. */
  lemma TailCovered(p: seq<Msg>, ended: set<nat>)
    requires p != [] && Covered(p, ended)
    ensures Covered(p[1..], ended)
    ensures p[0].Spawn? && p[0].owner in ended ==> EndIn(p[1..], 0, p[0].owner)
    ensures forall o: nat :: EndIn(p, 0, o) && !Ends(p[0], o) ==> EndIn(p[1..], 0, o)
  {
    var q := p[1..];
    forall i | 0 <= i < |q| && q[i].Spawn? && q[i].owner in ended ensures EndIn(q, i, q[i].owner) {
      assert EndIn(p, i + 1, p[i + 1].owner);
      var j :| i + 1 <= j < |p| && Ends(p[j], p[i + 1].owner);
      assert Ends(q[j - 1], q[i].owner);
    }
    forall o: nat | EndIn(p, 0, o) && !Ends(p[0], o) ensures EndIn(q, 0, o) {
      var j :| 0 <= j < |p| && Ends(p[j], o);
      assert Ends(q[j - 1], o);
    }
  }

  lemma AppliedSound(s: State, u: State, admitted: bool)
    requires Placed(s) && Sound(s) && s.wireB != [] && !s.cleaned && u == Apply(s, admitted)
    requires Path(s) != [] && Path(s)[0] == s.wireB[0] && Path(u) == Path(s)[1..]
    ensures Sound(u)
  {
    var p := Path(s);
    hide Path;
    if !Losing(s) {
      TailCovered(p, s.ended);
      hide Covered, EndIn;
    }
  }

  lemma EndOfB(s: State)
    requires Ok(s)
    ensures Ok(LoseB(s)) && Ok(ForgetB(s)) && Ok(CleanUp(s))
  {
    assert Path(LoseB(s)) == Path(s) && Path(ForgetB(s)) == Path(s) && Path(CleanUp(s)) == Path(s);
  }

  datatype Op =
    | ForwardOp(owner: nat, child: nat, room: bool) | EndOp(owner: nat, room: bool) | SendAOp(ok: bool) | GiveUpAOp | LoseAOp(arrived: nat)
    | ReceiveAOp | RouteOp(room: bool) | RemoveOp(room: bool) | SendBOp(ok: bool) | ApplyOp(admitted: bool)
    | LoseBOp | ForgetBOp | CleanUpOp

  function Step(s: State, op: Op): State {
    match op
    case ForwardOp(owner, child, room) => Forward(s, owner, child, room)
    case EndOp(owner, room) => End(s, owner, room)
    case SendAOp(ok) => SendA(s, ok)
    case GiveUpAOp => GiveUpA(s)
    case LoseAOp(arrived) => LoseA(s, arrived)
    case ReceiveAOp => ReceiveA(s)
    case RouteOp(room) => Route(s, room)
    case RemoveOp(room) => Remove(s, room)
    case SendBOp(ok) => SendB(s, ok)
    case ApplyOp(admitted) => Apply(s, admitted)
    case LoseBOp => LoseB(s)
    case ForgetBOp => ForgetB(s)
    case CleanUpOp => CleanUp(s)
  }

  lemma StepOk(s: State, op: Op)
    requires Ok(s)
    ensures Ok(Step(s, op))
  {
    hide Ok;
    match op
    case ForwardOp(owner, child, room) => ForwardOk(s, owner, child, room);
    case EndOp(owner, room) => EndOk(s, owner, room);
    case SendAOp(ok) => SendAOk(s, ok);
    case GiveUpAOp => GiveUpAOk(s);
    case LoseAOp(arrived) => LoseAOk(s, arrived);
    case ReceiveAOp => ReceiveAOk(s);
    case RouteOp(room) => RouteOk(s, room);
    case RemoveOp(room) => RemoveOk(s, room);
    case SendBOp(ok) => SendBOk(s, ok);
    case ApplyOp(admitted) => ApplyOk(s, admitted);
    case LoseBOp => EndOfB(s);
    case ForgetBOp => EndOfB(s);
    case CleanUpOp => EndOfB(s);
  }

  function Run(s: State, ops: seq<Op>): State
    decreases |ops|
  {
    if ops == [] then s else Run(Step(s, ops[0]), ops[1..])
  }

  lemma {:induction false} RunOk(s: State, ops: seq<Op>)
    requires Ok(s)
    ensures Ok(Run(s, ops))
    decreases |ops|
  {
    hide Ok, Step;
    if ops != [] {
      StepOk(s, ops[0]);
      RunOk(Step(s, ops[0]), ops[1..]);
    }
  }

  lemma StartOk(s: State)
    requires s == New()
    ensures Ok(s)
  {
    assert Path(s) == [];
  }

  /** In every run, no spawn on its way to the destination is behind the end of its owner or of its attachment. */
  lemma {:induction false} SpawnsComeFirst(ops: seq<Op>, i: nat, j: nat)
    requires i < j < |Path(Run(New(), ops))|
    ensures var p := Path(Run(New(), ops)); p[j].Spawn? ==> p[i] != OwnerEnd(p[j].owner) && p[i] != Closed && p[i] != HostEnd
  {
    StartOk(New());
    hide Run, New;
    RunOk(New(), ops);
    var p := Path(Run(New(), ops));
    assert p[j].Spawn? ==> !Ends(p[i], p[j].owner);
  }

  /**
    In every run, a remote child whose owner has ended is over, or the end of its
    owner or of the owner's attachment is on the path, or the loss of a link on
    the path is still to be acted on.
   */
  lemma {:induction false} OrphansAreEnded(ops: seq<Op>, c: nat)
    requires var s := Run(New(), ops); c in s.children && s.children[c] in s.ended
    ensures var s := Run(New(), ops);
      c in s.over || EndIn(Path(s), 0, s.children[c]) || Losing(s) || (s.lostB && !s.cleaned)
  {
    StartOk(New());
    hide Run, New;
    RunOk(New(), ops);
  }

  // ---- while nothing fails, nothing is lost ----

  /** Steps of a path whose queues have room and whose links hold. */
  datatype Move = ForwardMove(owner: nat, child: nat) | EndMove(owner: nat) | SendAMove | ReceiveAMove | RouteMove | SendBMove | ApplyMove(admitted: bool)

  function Moved(s: State, m: Move): State {
    match m
    case ForwardMove(owner, child) => Forward(s, owner, child, true)
    case EndMove(owner) => End(s, owner, true)
    case SendAMove => SendA(s, true)
    case ReceiveAMove => ReceiveA(s)
    case RouteMove => Route(s, true)
    case SendBMove => SendB(s, true)
    case ApplyMove(admitted) => Apply(s, admitted)
  }

  /** What a step hands over at the origin, and what it takes at the destination. */
  function HandsOver(s: State, m: Move): seq<Msg> {
    match m
    case ForwardMove(owner, child) => if owner in s.ended then [] else [Spawn(owner, child)]
    case EndMove(owner) => if owner !in s.ended && owner in s.told then [OwnerEnd(owner)] else []
    case _ => []
  }

  function TakesOff(s: State, m: Move): seq<Msg> { if m.ApplyMove? && s.wireB != [] then [s.wireB[0]] else [] }

  function Went(s: State, ms: seq<Move>): State
    decreases |ms|
  {
    if ms == [] then s else Went(Moved(s, ms[0]), ms[1..])
  }

  function HandedOver(s: State, ms: seq<Move>): seq<Msg>
    decreases |ms|
  {
    if ms == [] then [] else HandsOver(s, ms[0]) + HandedOver(Moved(s, ms[0]), ms[1..])
  }

  function TakenOff(s: State, ms: seq<Move>): seq<Msg>
    decreases |ms|
  {
    if ms == [] then [] else TakesOff(s, ms[0]) + TakenOff(Moved(s, ms[0]), ms[1..])
  }

  predicate Whole(s: State) { s.up && !s.lostA && s.attached && s.known && !s.lostB && !s.cleaned }

  predicate Plain(p: seq<Msg>) { forall i :: 0 <= i < |p| ==> p[i].Spawn? || p[i].OwnerEnd? }

  /** Both links hold, and nothing that ends them is on the way. */
  predicate Smooth(s: State) { Whole(s) && Plain(Path(s)) }

  lemma HandConserves(s: State, m: Move)
    requires Whole(s) && (m.ForwardMove? || m.EndMove?)
    ensures Whole(Moved(s, m)) && Path(Moved(s, m)) == Path(s) + HandsOver(s, m)
  {
    var u := Moved(s, m);
    assert u.queueA == s.queueA + HandsOver(s, m) && u.wireB == s.wireB && u.inboxB == s.inboxB && u.registry == s.registry && u.wireA == s.wireA;
    hide Moved, HandsOver;
  }

  lemma HopConserves(s: State, m: Move)
    requires Whole(s) && (m.SendAMove? || m.ReceiveAMove? || m.SendBMove?)
    ensures Whole(Moved(s, m)) && Path(Moved(s, m)) == Path(s)
  {
    var u := Moved(s, m);
    assert u.wireA + u.queueA == s.wireA + s.queueA || u.registry + u.wireA == s.registry + s.wireA || u.wireB + u.inboxB == s.wireB + s.inboxB;
  }

  lemma RouteConserves(s: State)
    requires Whole(s) && (s.registry != [] ==> s.registry[0].Spawn? || s.registry[0].OwnerEnd?)
    ensures Whole(Route(s, true)) && Path(Route(s, true)) == Path(s)
  {
    var u := Route(s, true);
    if s.registry != [] {
      assert u.inboxB + u.registry == s.inboxB + s.registry;
    }
  }

  lemma ApplyConserves(s: State, admitted: bool)
    requires Whole(s)
    ensures var u := Apply(s, admitted);
      Whole(u) && TakesOff(s, ApplyMove(admitted)) + Path(u) == Path(s) && (s.wireB != [] ==> Path(u) == Path(s)[1..])
  {
    var u := Apply(s, admitted);
    assert u.inboxB == s.inboxB && u.registry == s.registry && u.wireA == s.wireA && u.queueA == s.queueA && Whole(u);
    hide Apply;
  }

  lemma MoveConserves(s: State, m: Move)
    requires Smooth(s)
    ensures Smooth(Moved(s, m)) && TakesOff(s, m) + Path(Moved(s, m)) == Path(s) + HandsOver(s, m)
  {
    var p := Path(s);
    if s.registry != [] {
      assert p[|s.wireB + s.inboxB|] == s.registry[0];
    }
    hide Path, Forward, End, SendA, ReceiveA, Route, SendB, Apply;
    match m
    case ForwardMove(owner, child) => HandConserves(s, m);
    case EndMove(owner) => HandConserves(s, m);
    case SendAMove => HopConserves(s, m);
    case ReceiveAMove => HopConserves(s, m);
    case RouteMove => RouteConserves(s);
    case SendBMove => HopConserves(s, m);
    case ApplyMove(admitted) => ApplyConserves(s, admitted);
  }

  /**
    In every run in which no queue overflows and no link fails, what the
    destination has taken, followed by what is on the path, is what the origin
    has handed over: each spawn and each end once, in order.
   */
  lemma {:induction false} NothingIsLost(s: State, ms: seq<Move>)
    requires Smooth(s)
    ensures TakenOff(s, ms) + Path(Went(s, ms)) == Path(s) + HandedOver(s, ms)
    decreases |ms|
  {
    hide Moved, Path, HandsOver, TakesOff, Smooth;
    if ms == [] {
      assert TakenOff(s, ms) + Path(s) == Path(s) + HandedOver(s, ms);
    } else {
      var u := Moved(s, ms[0]);
      MoveConserves(s, ms[0]);
      NothingIsLost(u, ms[1..]);
      assert TakesOff(s, ms[0]) + TakenOff(u, ms[1..]) + Path(Went(u, ms[1..])) == TakesOff(s, ms[0]) + (TakenOff(u, ms[1..]) + Path(Went(u, ms[1..])));
      assert TakesOff(s, ms[0]) + (Path(u) + HandedOver(u, ms[1..])) == TakesOff(s, ms[0]) + Path(u) + HandedOver(u, ms[1..]);
      assert Path(s) + HandsOver(s, ms[0]) + HandedOver(u, ms[1..]) == Path(s) + (HandsOver(s, ms[0]) + HandedOver(u, ms[1..]));
    }
  }

  /** What a frame does at the destination: a spawn that is admitted makes a child that lives, an end ends exactly the children of its owner. */
  lemma FrameIsActedOn(s: State, admitted: bool)
    requires s.wireB != [] && !s.cleaned
    ensures var m, u := s.wireB[0], Apply(s, admitted);
      && u.wireB == s.wireB[1..]
      && (m.Spawn? && admitted ==> m.child in u.children && u.children[m.child] == m.owner && m.child !in u.over)
      && (m.Spawn? && !admitted ==> u.children == s.children && u.over == s.over)
      && (m.OwnerEnd? ==> u.children == s.children && forall c :: c in s.children ==> (c in u.over <==> c in s.over || s.children[c] == m.owner))
      && (m.HostEnd? ==> forall c :: c in s.children ==> c in u.over)
  {
  }
}
