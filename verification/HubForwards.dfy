/**
  The hub: a registry that lists one attachment per host, and a loop per
  attachment with an inbox and a table of calls it has written. A call forwarded
  by one attachment travels through the registry's inbox, the destination's inbox
  and table, a reply channel, the registry's inbox again and the origin's inbox.
  The call is only ever handed to an attachment of the host it names. Its reply is
  written at most once, to the attachment that sent the call, and exactly once
  unless that attachment is gone or has failed, or the hub closes.
 */
module HubForwards {
  import opened Common

  /** The reply to a call: refused by the registry, lost on the way, or what an attachment answered. */
  datatype Reply = Unsupported | UnknownHost | Lost | By(link: nat)

  /** What the registry has still to handle: a forwarded call, or the reply to one. */
  datatype Event = Asked(f: nat) | Answer(f: nat, value: Reply)

  /** What waits in an attachment's inbox: a call to write, or a reply to write. */
  datatype Item = Outgoing(f: nat) | Back(f: nat, value: Reply)

  datatype Slot = Slot(link: nat, item: Item)

  /** A reply written to an attachment. */
  datatype Sent = Sent(link: nat, value: Reply)

  /**
    `links` lists the attachment that serves a host. `gone` are attachments that
    were refused or removed, `failed` those that closed their own wire, and
    `finished` those whose loop has ended. `boxes` are the inboxes of all
    attachments, each first in, first out. `origin` is the attachment that sent a
    call. `pending` are the calls written, by attachment and call number. `ready` is what the reply channels of calls hold,
    and `waiting` are the calls somebody waits for. `told` is, for each call, to
    whom which reply was written. The host a call names is a function of the call.
   */
  datatype Hub = Hub(links: map<nat, nat>, hosts: map<nat, nat>, gone: set<nat>, failed: set<nat>, finished: set<nat>, closing: bool,
                     origin: map<nat, nat>, registry: seq<Event>, boxes: seq<Slot>, pending: map<(nat, nat), nat>, next: nat,
                     ready: map<nat, Reply>, waiting: set<nat>, told: map<nat, seq<Sent>>)

  function NewHub(): Hub { Hub(map[], map[], {}, {}, {}, false, map[], [], [], map[], 0, map[], {}, map[]) }

  predicate Serves(links: map<nat, nat>, hosts: map<nat, nat>, a: nat) { a in hosts && hosts[a] in links && links[hosts[a]] == a }

  predicate Listed(h: Hub, a: nat) { Serves(h.links, h.hosts, a) }

  function Removed(h: Hub, a: nat): Hub {
    if Listed(h, a) then h.(links := h.links - {h.hosts[a]}, gone := h.gone + {a}) else h
  }

  function Attach(h: Hub, a: nat, host: nat): Hub {
    var h1 := h.(hosts := h.hosts[a := host]);
    if host in h.links then h1.(gone := h.gone + {a}) else h1.(links := h.links[host := a])
  }

  function Receive(h: Hub, a: nat, f: nat): Hub {
    h.(origin := h.origin[f := a], registry := h.registry + [Asked(f)], told := h.told[f := []])
  }

  function Posted(h: Hub, a: nat, item: Item): Hub { h.(boxes := h.boxes + [Slot(a, item)]) }

  /** The reply of call f goes to its origin if that is still the attachment listed for its host. */
  function ReplyTo(h: Hub, f: nat, v: Reply, room: bool): Hub
    requires f in h.origin
  {
    if Listed(h, h.origin[f]) && room then Posted(h, h.origin[f], Back(f, v)) else Removed(h, h.origin[f])
  }

  /** A forwarded call for a host: ignored, refused, handed to the destination, or lost with it. */
  function Forward(h: Hub, f: nat, host: nat, refused: bool, room: bool): Hub
    requires f in h.origin
  {
    if !Listed(h, h.origin[f]) then h
    else if refused then ReplyTo(h, f, Unsupported, room)
    else if host !in h.links then ReplyTo(h, f, UnknownHost, room)
    else if room then Posted(h, h.links[host], Outgoing(f)).(waiting := h.waiting + {f})
    else Removed(h.(ready := h.ready[f := Lost], waiting := h.waiting + {f}), h.links[host])
  }

  /** The registry handles its oldest event. */
  function Next(to: nat -> nat, h: Hub, refused: bool, room: bool): Hub {
    if h.registry == [] || h.registry[0].f !in h.origin then h else
    var h1 := h.(registry := h.registry[1..]);
    match h.registry[0]
    case Asked(f) => Forward(h1, f, to(f), refused, room)
    case Answer(f, v) => ReplyTo(h1, f, v, room)
  }

  /** An attachment handles the k-th slot, the oldest of its own; `ok` says that it could be written. */
  function Take(h: Hub, k: nat, ok: bool): Hub
    requires k < |h.boxes|
  {
    var a, h1 := h.boxes[k].link, h.(boxes := h.boxes[..k] + h.boxes[k + 1..]);
    match h.boxes[k].item
    case Outgoing(f) =>
      if ok && a !in h.failed then h1.(pending := h.pending[(a, h.next) := f], next := h.next + 1)
      else h1.(ready := h.ready[f := Lost])
    case Back(f, v) =>
      if ok && a !in h.failed && f in h.told then h1.(told := h.told[f := h.told[f] + [Sent(a, v)]]) else h1.(failed := h.failed + {a})
  }

  function Respond(h: Hub, a: nat, id: nat, valid: bool): Hub {
    if a in h.failed then h
    else if (a, id) !in h.pending || !valid then h.(failed := h.failed + {a})
    else h.(pending := h.pending - {(a, id)}, ready := h.ready[h.pending[(a, id)] := By(a)])
  }

  function Fail(h: Hub, a: nat): Hub { h.(failed := h.failed + {a}) }

  // ---- a loop ends ----

  /** The calls an attachment has written, and those it has still to write. */
  function Written(pending: map<(nat, nat), nat>, a: nat): set<nat> { set k | k in pending && k.0 == a :: pending[k] }

  function Unwritten(boxes: seq<Slot>, a: nat): set<nat> {
    set i | 0 <= i < |boxes| && boxes[i].link == a && boxes[i].item.Outgoing? :: boxes[i].item.f
  }

  /** The inboxes of the others. */
  function Others(boxes: seq<Slot>, a: nat): seq<Slot> {
    if boxes == [] then [] else
    Others(boxes[..|boxes| - 1], a) + if boxes[|boxes| - 1].link == a then [] else [boxes[|boxes| - 1]]
  }

  function AllLost(ready: map<nat, Reply>, calls: set<nat>): map<nat, Reply> {
    map f | f in ready.Keys + calls :: if f in calls then Lost else ready[f]
  }

  /** The loop ends: the registry forgets the attachment, its calls are lost, and replies still meant for it reach nobody. */
  function Finish(h: Hub, a: nat): Hub {
    Removed(h, a).(gone := h.gone + {a}, finished := h.finished + {a}, boxes := Others(h.boxes, a),
                   pending := map k | k in h.pending && k.0 != a :: h.pending[k],
                   ready := AllLost(h.ready, Written(h.pending, a) + Unwritten(h.boxes, a)))
  }

  /** The one who waits for the reply of f passes it on, or gives up once its origin's loop has ended or the hub closes. */
  function Relay(h: Hub, f: nat, give: bool): Hub {
    if f !in h.waiting || f !in h.origin then h
    else if give then (if h.origin[f] in h.finished || h.closing then h.(waiting := h.waiting - {f}) else h)
    else if f in h.ready then h.(registry := h.registry + [Answer(f, h.ready[f])], ready := h.ready - {f}, waiting := h.waiting - {f})
    else h
  }

  function Shutdown(h: Hub): Hub { h.(closing := true) }

  // ---- where a call can be ----

  function AtRegistry(registry: seq<Event>): set<nat> { set i | 0 <= i < |registry| :: registry[i].f }

  function InBoxes(boxes: seq<Slot>): set<nat> { set i | 0 <= i < |boxes| :: boxes[i].item.f }

  function Pending(pending: map<(nat, nat), nat>): set<nat> { set k | k in pending :: pending[k] }

  function Told(told: map<nat, seq<Sent>>): set<nat> { set f | f in told && told[f] != [] }

  ghost predicate SeveralEvents(registry: seq<Event>) { forall i, j :: 0 <= i < j < |registry| ==> registry[i].f != registry[j].f }

  ghost predicate SeveralSlots(boxes: seq<Slot>) { forall i, j :: 0 <= i < j < |boxes| ==> boxes[i].item.f != boxes[j].item.f }

  ghost predicate SeveralCalls(pending: map<(nat, nat), nat>) { forall i, j :: i in pending && j in pending && i != j ==> pending[i] != pending[j] }

  /** The places a call can be in, as sets of calls. */
  datatype Places = Places(reg: set<nat>, box: set<nat>, pend: set<nat>, ready: set<nat>, done: set<nat>)

  function PlacesOf(h: Hub): Places { Places(AtRegistry(h.registry), InBoxes(h.boxes), Pending(h.pending), h.ready.Keys, Told(h.told)) }

  /** No call is in two places. */
  predicate Apart(p: Places) {
    && p.reg !! p.box && p.reg !! p.pend && p.reg !! p.ready && p.reg !! p.done
    && p.box !! p.pend && p.box !! p.ready && p.box !! p.done
    && p.pend !! p.ready && p.pend !! p.done && p.ready !! p.done
  }

  predicate Excused(h: Hub, a: nat) { a in h.gone || a in h.failed || h.closing }

  /** Nor is it twice in one place. */
  ghost predicate OnceEach(h: Hub) {
    SeveralEvents(h.registry) && SeveralSlots(h.boxes) && SeveralCalls(h.pending) && forall k :: k in h.pending ==> k.1 < h.next
  }

  ghost predicate Known(h: Hub) {
    var p := PlacesOf(h);
    && p.reg <= h.origin.Keys && p.box <= h.origin.Keys && p.pend <= h.origin.Keys && p.ready <= h.origin.Keys
    && h.told.Keys == h.origin.Keys && (forall f :: f in h.origin ==> h.origin[f] in h.hosts)
  }

  /** A call is somewhere, or in hand, until its reply is written, unless its origin cannot be told. */
  ghost predicate Kept(h: Hub, hand: set<nat>) {
    var p := PlacesOf(h);
    && (forall f :: f in h.origin && !Excused(h, h.origin[f]) && f !in hand ==> f in p.reg || f in p.box || f in p.pend || f in p.ready || f in p.done)
    && (forall f :: f in h.origin && !Excused(h, h.origin[f]) && (f in p.pend || f in p.ready) ==> f in h.waiting)
  }

  ghost predicate SlotsOk(h: Hub) {
    && (forall i :: 0 <= i < |h.boxes| ==> h.boxes[i].link !in h.finished)
    && (forall i :: 0 <= i < |h.boxes| && h.boxes[i].item.Back? ==> h.boxes[i].item.f in h.origin && h.boxes[i].link == h.origin[h.boxes[i].item.f])
    && (forall i :: 0 <= i < |h.boxes| && h.boxes[i].item.Outgoing? ==>
          h.boxes[i].item.f in h.origin && (Excused(h, h.origin[h.boxes[i].item.f]) || h.boxes[i].item.f in h.waiting))
    && (forall k :: k in h.pending ==> k.0 !in h.finished)
    && (forall f :: f in h.told && h.told[f] != [] ==> f in h.origin && |h.told[f]| == 1 && h.told[f][0].link == h.origin[f])
  }

  /** Each host has at most one attachment, whose loop is running; any other attachment is gone. */
  ghost predicate Lists(links: map<nat, nat>, hosts: map<nat, nat>, gone: set<nat>, finished: set<nat>) {
    && (forall k :: k in links ==> links[k] in hosts && hosts[links[k]] == k && links[k] !in finished)
    && (forall a :: a in hosts ==> Serves(links, hosts, a) || a in gone) && finished <= gone
  }

  ghost predicate ListsOk(h: Hub) { Lists(h.links, h.hosts, h.gone, h.finished) }

  ghost predicate HubOk(h: Hub, hand: set<nat>) { Apart(PlacesOf(h)) && OnceEach(h) && Known(h) && Kept(h, hand) && SlotsOk(h) && ListsOk(h) }

  // ---- moving a call ----

  lemma EventAdded(registry: seq<Event>, e: Event)
    requires SeveralEvents(registry) && e.f !in AtRegistry(registry)
    ensures AtRegistry(registry + [e]) == AtRegistry(registry) + {e.f} && SeveralEvents(registry + [e])
  {
    var q := registry + [e];
    assert forall i :: 0 <= i < |registry| ==> q[i] == registry[i] && registry[i].f in AtRegistry(registry);
    assert q[|registry|] == e;
    assert AtRegistry(q) == AtRegistry(registry) + {e.f} by {
      forall f ensures f in AtRegistry(q) <==> f in AtRegistry(registry) + {e.f} {
        if f in AtRegistry(registry) {
          var i :| 0 <= i < |registry| && registry[i].f == f;
          assert q[i].f == f;
        }
        if f == e.f {
          assert q[|registry|].f == f;
        }
      }
    }
  }

  lemma EventTaken(registry: seq<Event>)
    requires SeveralEvents(registry) && registry != []
    ensures AtRegistry(registry[1..]) == AtRegistry(registry) - {registry[0].f} && SeveralEvents(registry[1..])
    ensures registry[0].f in AtRegistry(registry)
  {
    var q := registry[1..];
    assert forall i :: 0 <= i < |q| ==> q[i] == registry[i + 1];
    forall f ensures f in AtRegistry(q) <==> f in AtRegistry(registry) && f != registry[0].f {
      if f in AtRegistry(registry) && f != registry[0].f {
        var i :| 0 <= i < |registry| && registry[i].f == f;
        assert q[i - 1].f == f;
      }
    }
  }

  lemma SlotAdded(boxes: seq<Slot>, s: Slot)
    requires SeveralSlots(boxes) && s.item.f !in InBoxes(boxes)
    ensures InBoxes(boxes + [s]) == InBoxes(boxes) + {s.item.f} && SeveralSlots(boxes + [s])
  {
    var q := boxes + [s];
    assert forall i :: 0 <= i < |boxes| ==> q[i] == boxes[i] && boxes[i].item.f in InBoxes(boxes);
    assert q[|boxes|] == s;
    forall f ensures f in InBoxes(q) <==> f in InBoxes(boxes) + {s.item.f} {
      if f in InBoxes(boxes) {
        var i :| 0 <= i < |boxes| && boxes[i].item.f == f;
        assert q[i].item.f == f;
      }
      if f == s.item.f {
        assert q[|boxes|].item.f == f;
      }
    }
  }

  lemma SlotTaken(boxes: seq<Slot>, k: nat)
    requires SeveralSlots(boxes) && k < |boxes|
    ensures var q := boxes[..k] + boxes[k + 1..];
      InBoxes(q) == InBoxes(boxes) - {boxes[k].item.f} && SeveralSlots(q) && forall i :: 0 <= i < |q| ==> q[i] in boxes
    ensures boxes[k].item.f in InBoxes(boxes)
  {
    var q := boxes[..k] + boxes[k + 1..];
    assert forall i :: 0 <= i < |q| ==> q[i] == boxes[if i < k then i else i + 1];
    forall f ensures f in InBoxes(q) <==> f in InBoxes(boxes) && f != boxes[k].item.f {
      if f in InBoxes(boxes) && f != boxes[k].item.f {
        var i :| 0 <= i < |boxes| && boxes[i].item.f == f;
        assert q[if i < k then i else i - 1].item.f == f;
      }
    }
  }

  lemma CallAdded(pending: map<(nat, nat), nat>, k: (nat, nat), f: nat)
    requires SeveralCalls(pending) && k !in pending && f !in Pending(pending)
    ensures Pending(pending[k := f]) == Pending(pending) + {f} && SeveralCalls(pending[k := f])
  {
    var q := pending[k := f];
    assert q[k] == f;
    assert forall j :: j in pending ==> q[j] == pending[j] && pending[j] in Pending(pending);
    forall x ensures x in Pending(q) <==> x in Pending(pending) + {f} {
      if x in Pending(pending) {
        var j :| j in pending && pending[j] == x;
        assert q[j] == x;
      }
    }
  }

  lemma CallTaken(pending: map<(nat, nat), nat>, k: (nat, nat))
    requires SeveralCalls(pending) && k in pending
    ensures Pending(pending - {k}) == Pending(pending) - {pending[k]} && SeveralCalls(pending - {k}) && pending[k] in Pending(pending)
  {
    var q := pending - {k};
    forall x ensures x in Pending(q) <==> x in Pending(pending) && x != pending[k] {
      if x in Pending(pending) && x != pending[k] {
        var j :| j in pending && pending[j] == x;
        assert q[j] == x;
      }
    }
  }

  /** Call f is nowhere. */
  predicate Nowhere(p: Places, f: nat) { f !in p.reg && f !in p.box && f !in p.pend && f !in p.ready && f !in p.done }

  lemma TakeEvent(h: Hub)
    requires HubOk(h, {}) && h.registry != []
    ensures var f, u := h.registry[0].f, h.(registry := h.registry[1..]);
      HubOk(u, {f}) && f in h.origin && Nowhere(PlacesOf(u), f)
  {
    hide AtRegistry, InBoxes, Pending, Told, SeveralEvents, SeveralSlots, SeveralCalls, SlotsOk;
    var u := h.(registry := h.registry[1..]);
    EventTaken(h.registry);
    TakenSlots(h, u);
  }

  lemma TakenSlots(h: Hub, u: Hub)
    requires SlotsOk(h) && u == h.(registry := u.registry)
    ensures SlotsOk(u)
  {
  }

  lemma RemovedOk(h: Hub, a: nat, hand: set<nat>)
    requires HubOk(h, hand)
    ensures HubOk(Removed(h, a), hand) && (a in h.hosts ==> a in Removed(h, a).gone)
  {
    hide AtRegistry, InBoxes, Pending, Told, SeveralEvents, SeveralSlots, SeveralCalls;
  }

  lemma Let(h: Hub, f: nat)
    requires HubOk(h, {f}) && f in h.origin && Excused(h, h.origin[f])
    ensures HubOk(h, {})
  {
    hide Apart, OnceEach, Known, SlotsOk, ListsOk, PlacesOf;
  }

  lemma PostBack(h: Hub, f: nat, v: Reply)
    requires HubOk(h, {f}) && f in h.origin && Nowhere(PlacesOf(h), f) && Listed(h, h.origin[f])
    ensures HubOk(Posted(h, h.origin[f], Back(f, v)), {})
  {
    hide AtRegistry, InBoxes, Pending, Told, SeveralEvents, SeveralSlots, SeveralCalls;
    SlotAdded(h.boxes, Slot(h.origin[f], Back(f, v)));
  }

  lemma PostOut(h: Hub, f: nat, a: nat)
    requires HubOk(h, {f}) && f in h.origin && Nowhere(PlacesOf(h), f) && a in h.links.Values
    ensures HubOk(Posted(h, a, Outgoing(f)).(waiting := h.waiting + {f}), {})
  {
    hide AtRegistry, InBoxes, Pending, Told, SeveralEvents, SeveralSlots, SeveralCalls;
    SlotAdded(h.boxes, Slot(a, Outgoing(f)));
  }

  lemma LoseCall(h: Hub, f: nat)
    requires HubOk(h, {f}) && f in h.origin && Nowhere(PlacesOf(h), f)
    ensures HubOk(h.(ready := h.ready[f := Lost], waiting := h.waiting + {f}), {})
  {
    hide AtRegistry, InBoxes, Pending, Told, SeveralEvents, SeveralSlots, SeveralCalls;
  }

  lemma ReplyOk(h: Hub, f: nat, v: Reply, room: bool)
    requires HubOk(h, {f}) && f in h.origin && Nowhere(PlacesOf(h), f)
    ensures HubOk(ReplyTo(h, f, v, room), {})
  {
    if Listed(h, h.origin[f]) && room {
      PostBack(h, f, v);
    } else {
      RemovedOk(h, h.origin[f], {f});
      Let(Removed(h, h.origin[f]), f);
    }
  }

  lemma ForwardOk(h: Hub, f: nat, host: nat, refused: bool, room: bool)
    requires HubOk(h, {f}) && f in h.origin && Nowhere(PlacesOf(h), f)
    ensures HubOk(Forward(h, f, host, refused, room), {})
  {
    if !Listed(h, h.origin[f]) {
      Let(h, f);
    } else {
      hide HubOk, Nowhere;
      if refused || host !in h.links {
        ReplyOk(h, f, if refused then Unsupported else UnknownHost, room);
      } else if room {
        PostOut(h, f, h.links[host]);
      } else {
        LoseCall(h, f);
        RemovedOk(h.(ready := h.ready[f := Lost], waiting := h.waiting + {f}), h.links[host], {});
      }
    }
  }

  lemma NextOk(to: nat -> nat, h: Hub, refused: bool, room: bool)
    requires HubOk(h, {})
    ensures HubOk(Next(to, h, refused, room), {})
  {
    hide HubOk, Nowhere, Forward, ReplyTo;
    if h.registry != [] {
      TakeEvent(h);
      var h1 := h.(registry := h.registry[1..]);
      match h.registry[0]
      case Asked(f) => ForwardOk(h1, f, to(f), refused, room);
      case Answer(f, v) => ReplyOk(h1, f, v, room);
    }
  }

  // ---- an attachment's loop ----

  lemma TakeSlot(h: Hub, k: nat)
    requires HubOk(h, {}) && k < |h.boxes|
    ensures var f, u := h.boxes[k].item.f, h.(boxes := h.boxes[..k] + h.boxes[k + 1..]);
      HubOk(u, {f}) && f in h.origin && Nowhere(PlacesOf(u), f)
  {
    hide AtRegistry, InBoxes, Pending, Told, SeveralEvents, SeveralSlots, SeveralCalls;
    var u := h.(boxes := h.boxes[..k] + h.boxes[k + 1..]);
    SlotTaken(h.boxes, k);
    assert SlotsOk(u);
  }

  lemma WriteCall(h: Hub, f: nat, a: nat)
    requires HubOk(h, {f}) && f in h.origin && Nowhere(PlacesOf(h), f) && a !in h.finished
    requires Excused(h, h.origin[f]) || f in h.waiting
    ensures HubOk(h.(pending := h.pending[(a, h.next) := f], next := h.next + 1), {})
  {
    hide AtRegistry, InBoxes, Pending, Told, SeveralEvents, SeveralSlots, SeveralCalls;
    CallAdded(h.pending, (a, h.next), f);
  }

  lemma LostCall(h: Hub, f: nat)
    requires HubOk(h, {f}) && f in h.origin && Nowhere(PlacesOf(h), f) && (Excused(h, h.origin[f]) || f in h.waiting)
    ensures HubOk(h.(ready := h.ready[f := Lost]), {})
  {
    hide AtRegistry, InBoxes, Pending, Told, SeveralEvents, SeveralSlots, SeveralCalls;
  }

  lemma ToldMore(told: map<nat, seq<Sent>>, f: nat, a: Sent)
    requires f in told
    ensures Told(told[f := told[f] + [a]]) == Told(told) + {f} && (f !in Told(told) ==> told[f] == [])
  {
  }

  lemma TellOrigin(h: Hub, f: nat, v: Reply)
    requires HubOk(h, {f}) && f in h.origin && Nowhere(PlacesOf(h), f) && f in h.told
    ensures HubOk(h.(told := h.told[f := h.told[f] + [Sent(h.origin[f], v)]]), {})
  {
    hide AtRegistry, InBoxes, Pending, Told, SeveralEvents, SeveralSlots, SeveralCalls;
    ToldMore(h.told, f, Sent(h.origin[f], v));
  }

  lemma FailOk(h: Hub, a: nat, hand: set<nat>)
    requires HubOk(h, hand)
    ensures HubOk(Fail(h, a), hand)
  {
    hide AtRegistry, InBoxes, Pending, Told, SeveralEvents, SeveralSlots, SeveralCalls;
  }

  /** What is known of the slot an attachment takes. */
  lemma SlotFacts(h: Hub, k: nat)
    requires HubOk(h, {}) && k < |h.boxes|
    ensures var a, item := h.boxes[k].link, h.boxes[k].item;
      && item.f in h.origin && item.f in h.told && a !in h.finished && (item.Back? ==> a == h.origin[item.f])
      && (item.Outgoing? ==> Excused(h, h.origin[item.f]) || item.f in h.waiting)
  {
    hide AtRegistry, Pending, Told, SeveralEvents, SeveralSlots, SeveralCalls;
    assert h.boxes[k].item.f in InBoxes(h.boxes);
  }

  lemma TakeOk(h: Hub, k: nat, ok: bool)
    requires HubOk(h, {}) && k < |h.boxes|
    ensures HubOk(Take(h, k, ok), {})
  {
    hide HubOk, Nowhere;
    SlotFacts(h, k);
    TakeSlot(h, k);
    var a, u := h.boxes[k].link, h.(boxes := h.boxes[..k] + h.boxes[k + 1..]);
    match h.boxes[k].item
    case Outgoing(f) =>
      if ok && a !in h.failed {
        WriteCall(u, f, a);
      } else {
        LostCall(u, f);
      }
    case Back(f, v) =>
      if ok && a !in h.failed {
        TellOrigin(u, f, v);
      } else {
        FailOk(u, a, {f});
        Let(Fail(u, a), f);
      }
  }

  lemma RespondOk(h: Hub, a: nat, id: nat, valid: bool)
    requires HubOk(h, {})
    ensures HubOk(Respond(h, a, id, valid), {})
  {
    if a !in h.failed && ((a, id) !in h.pending || !valid) {
      FailOk(h, a, {});
    } else if a !in h.failed {
      hide HubOk;
      AnsweredOk(h, (a, id));
    }
  }

  lemma AnsweredOk(h: Hub, k: (nat, nat))
    requires HubOk(h, {}) && k in h.pending
    ensures HubOk(h.(pending := h.pending - {k}, ready := h.ready[h.pending[k] := By(k.0)]), {})
  {
    hide AtRegistry, InBoxes, Pending, Told, SeveralEvents, SeveralSlots, SeveralCalls;
    CallTaken(h.pending, k);
    assert OnceEach(h.(pending := h.pending - {k}, ready := h.ready[h.pending[k] := By(k.0)]));
  }

  lemma SlotMembers(boxes: seq<Slot>)
    ensures forall i :: 0 <= i < |boxes| ==> boxes[i].item.f in InBoxes(boxes)
  {
  }

  lemma GiveUpOk(h: Hub, f: nat)
    requires HubOk(h, {}) && f in h.origin && (h.origin[f] in h.finished || h.closing)
    ensures HubOk(h.(waiting := h.waiting - {f}), {})
  {
    hide AtRegistry, InBoxes, Pending, Told, SeveralEvents, SeveralSlots, SeveralCalls;
  }

  lemma PassOnOk(h: Hub, f: nat)
    requires HubOk(h, {}) && f in h.origin && f in h.ready
    ensures HubOk(h.(registry := h.registry + [Answer(f, h.ready[f])], ready := h.ready - {f}, waiting := h.waiting - {f}), {})
  {
    hide AtRegistry, InBoxes, Pending, Told, SeveralEvents, SeveralSlots, SeveralCalls;
    EventAdded(h.registry, Answer(f, h.ready[f]));
    SlotMembers(h.boxes);
  }

  lemma RelayOk(h: Hub, f: nat, give: bool)
    requires HubOk(h, {})
    ensures HubOk(Relay(h, f, give), {})
  {
    hide HubOk;
    if f in h.waiting && f in h.origin && give && (h.origin[f] in h.finished || h.closing) {
      GiveUpOk(h, f);
    } else if f in h.waiting && f in h.origin && !give && f in h.ready {
      PassOnOk(h, f);
    }
  }

  // ---- a loop ends ----

  lemma {:induction false} OthersMeans(boxes: seq<Slot>, a: nat)
    requires SeveralSlots(boxes)
    ensures var q := Others(boxes, a);
      && SeveralSlots(q) && (forall i :: 0 <= i < |q| ==> q[i] in boxes && q[i].link != a)
      && (forall i :: 0 <= i < |boxes| && boxes[i].link != a ==> boxes[i] in q)
  {
    if boxes != [] {
      var n := |boxes| - 1;
      OthersMeans(boxes[..n], a);
      var q := Others(boxes[..n], a);
      forall i | 0 <= i < |q|
        ensures q[i].item.f != boxes[n].item.f && q[i] in boxes
      {
        var j :| 0 <= j < n && boxes[..n][j] == q[i];
        assert boxes[j] == q[i];
      }
      forall i | 0 <= i < |boxes| && boxes[i].link != a
        ensures boxes[i] in Others(boxes, a)
      {
        assert i < n ==> boxes[..n][i] in q;
      }
    }
  }

  /** The calls and replies in an attachment's inbox. */
  function Mail(boxes: seq<Slot>, a: nat): set<nat> { set i | 0 <= i < |boxes| && boxes[i].link == a :: boxes[i].item.f }

  lemma OthersBoxes(boxes: seq<Slot>, a: nat)
    requires SeveralSlots(boxes)
    ensures InBoxes(Others(boxes, a)) == InBoxes(boxes) - Mail(boxes, a) && Unwritten(boxes, a) <= Mail(boxes, a) <= InBoxes(boxes)
  {
    OthersMeans(boxes, a);
    var q := Others(boxes, a);
    forall f ensures f in InBoxes(q) <==> f in InBoxes(boxes) && f !in Mail(boxes, a) {
      if f in InBoxes(q) {
        var i :| 0 <= i < |q| && q[i].item.f == f;
        var j :| 0 <= j < |boxes| && boxes[j] == q[i];
        assert f !in Mail(boxes, a);
      }
      if f in InBoxes(boxes) && f !in Mail(boxes, a) {
        var i :| 0 <= i < |boxes| && boxes[i].item.f == f;
        var j :| 0 <= j < |q| && q[j] == boxes[i];
        assert q[j].item.f == f;
      }
    }
  }

  lemma OthersPending(pending: map<(nat, nat), nat>, a: nat)
    requires SeveralCalls(pending)
    ensures var q := map k | k in pending && k.0 != a :: pending[k];
      && SeveralCalls(q) && Pending(q) == Pending(pending) - Written(pending, a) && Written(pending, a) <= Pending(pending)
  {
    var q := map k | k in pending && k.0 != a :: pending[k];
    forall f ensures f in Pending(q) <==> f in Pending(pending) && f !in Written(pending, a) {
      if f in Pending(pending) && f !in Written(pending, a) {
        var k :| k in pending && pending[k] == f;
        assert k in q && q[k] == f;
      }
    }
  }

  lemma FinishPlaces(h: Hub, a: nat)
    requires OnceEach(h)
    ensures var p, q := PlacesOf(h), PlacesOf(Finish(h, a));
      && q.reg == p.reg && q.done == p.done && q.box == p.box - Mail(h.boxes, a) && q.pend == p.pend - Written(h.pending, a)
      && q.ready == p.ready + Written(h.pending, a) + Unwritten(h.boxes, a)
      && Unwritten(h.boxes, a) <= Mail(h.boxes, a) <= p.box && Written(h.pending, a) <= p.pend
    ensures OnceEach(Finish(h, a))
  {
    OthersMeans(h.boxes, a);
    OthersBoxes(h.boxes, a);
    OthersPending(h.pending, a);
    hide AtRegistry, InBoxes, Pending, Told, SeveralEvents, SeveralSlots, SeveralCalls, Others, Written, Unwritten, Mail, Removed;
    RemovedSame(h, a);
  }

  lemma RemovedSame(h: Hub, a: nat)
    ensures Removed(h, a) == h.(links := Removed(h, a).links, gone := Removed(h, a).gone)
  {
  }

  lemma StillApart(p: Places, q: Places, mail: set<nat>, lost: set<nat>, written: set<nat>)
    requires Apart(p) && q.reg == p.reg && q.done == p.done && q.box == p.box - mail && q.pend == p.pend - written
    requires q.ready == p.ready + written + lost && lost <= mail <= p.box && written <= p.pend
    ensures Apart(q)
  {
  }

  lemma FinishOnce(h: Hub, a: nat)
    requires OnceEach(h) && Apart(PlacesOf(h))
    ensures OnceEach(Finish(h, a)) && Apart(PlacesOf(Finish(h, a)))
    ensures var p, q := PlacesOf(h), PlacesOf(Finish(h, a));
      && q.reg == p.reg && q.done == p.done && q.box == p.box - Mail(h.boxes, a) && q.pend == p.pend - Written(h.pending, a)
      && q.ready == p.ready + Written(h.pending, a) + Unwritten(h.boxes, a) && Unwritten(h.boxes, a) <= p.box && Written(h.pending, a) <= p.pend
  {
    FinishPlaces(h, a);
    hide PlacesOf, Finish, OnceEach, Apart, Written, Unwritten, Mail;
    StillApart(PlacesOf(h), PlacesOf(Finish(h, a)), Mail(h.boxes, a), Unwritten(h.boxes, a), Written(h.pending, a));
  }

  lemma FewerSlots(h: Hub, u: Hub, a: nat)
    requires SlotsOk(h) && (forall i :: 0 <= i < |u.boxes| ==> u.boxes[i] in h.boxes && u.boxes[i].link != a)
    requires u.told == h.told && u.origin == h.origin && u.waiting == h.waiting && u.finished == h.finished + {a}
    requires (forall b :: Excused(h, b) ==> Excused(u, b)) && forall k :: k in u.pending ==> k in h.pending && k.0 != a
    ensures SlotsOk(u)
  {
    hide Excused;
  }

  lemma FinishSlots(h: Hub, a: nat)
    requires SlotsOk(h) && SeveralSlots(h.boxes)
    ensures SlotsOk(Finish(h, a))
  {
    hide SeveralSlots, Others, Written, Unwritten, SlotsOk, AllLost;
    OthersMeans(h.boxes, a);
    FewerSlots(h, Finish(h, a), a);
  }

  lemma FinishLists(h: Hub, a: nat)
    requires ListsOk(h)
    ensures ListsOk(Finish(h, a))
  {
    hide Others, Written, Unwritten;
    var u := Finish(h, a);
    forall k | k in u.links ensures u.links[k] != a {
      assert h.hosts[h.links[k]] == k;
    }
  }

  /** Mail that is no call to write is a reply to the attachment itself. */
  lemma MailMeans(h: Hub, a: nat, f: nat)
    requires SlotsOk(h) && f in Mail(h.boxes, a)
    ensures f in h.origin && (f in Unwritten(h.boxes, a) || h.origin[f] == a)
    ensures f in Unwritten(h.boxes, a) ==> Excused(h, h.origin[f]) || f in h.waiting
  {
    var i :| 0 <= i < |h.boxes| && h.boxes[i].link == a && h.boxes[i].item.f == f;
    if f in Unwritten(h.boxes, a) {
      var j :| 0 <= j < |h.boxes| && h.boxes[j].link == a && h.boxes[j].item.Outgoing? && h.boxes[j].item.f == f;
    }
  }

  lemma FinishKept(h: Hub, a: nat)
    requires HubOk(h, {})
    ensures Kept(Finish(h, a), {})
  {
    FinishOnce(h, a);
    hide AtRegistry, InBoxes, Pending, Told, SeveralEvents, SeveralSlots, SeveralCalls, Written, Unwritten, Mail, SlotsOk, Others;
    var u, p, q := Finish(h, a), PlacesOf(h), PlacesOf(Finish(h, a));
    forall f | f in h.origin && !Excused(u, u.origin[f])
      ensures f in q.reg || f in q.box || f in q.pend || f in q.ready || f in q.done
      ensures f in q.pend || f in q.ready ==> f in u.waiting
    {
      assert !Excused(h, h.origin[f]);
      if f in Mail(h.boxes, a) {
        MailMeans(h, a, f);
      }
      if f in Unwritten(h.boxes, a) {
        UnwrittenMail(h.boxes, a);
      }
    }
  }

  lemma UnwrittenMail(boxes: seq<Slot>, a: nat)
    ensures Unwritten(boxes, a) <= Mail(boxes, a)
  {
  }

  lemma FinishOk(h: Hub, a: nat)
    requires HubOk(h, {})
    ensures HubOk(Finish(h, a), {})
  {
    FinishOnce(h, a);
    FinishSlots(h, a);
    FinishLists(h, a);
    FinishKept(h, a);
    hide AtRegistry, InBoxes, Pending, Told, OnceEach, Kept, SlotsOk, ListsOk, Apart, Written, Unwritten, Mail, Others;
  }

  // ---- every run ----

  lemma ReceiveOk(h: Hub, a: nat, f: nat)
    requires HubOk(h, {}) && f !in h.origin && a in h.hosts
    ensures HubOk(Receive(h, a, f), {})
  {
    hide AtRegistry, InBoxes, Pending, Told, SeveralEvents, SeveralSlots, SeveralCalls, SlotsOk, ListsOk;
    EventAdded(h.registry, Asked(f));
    ToldNew(h.told, f);
    ReceiveSlots(h, a, f);
  }

  lemma ReceiveSlots(h: Hub, a: nat, f: nat)
    requires SlotsOk(h) && ListsOk(h) && f !in h.origin
    ensures SlotsOk(Receive(h, a, f)) && ListsOk(Receive(h, a, f))
  {
  }

  lemma ToldNew(told: map<nat, seq<Sent>>, f: nat)
    requires f !in told
    ensures Told(told[f := []]) == Told(told) && f !in Told(told)
  {
  }

  lemma ListsMore(links: map<nat, nat>, hosts: map<nat, nat>, gone: set<nat>, finished: set<nat>, a: nat, host: nat)
    requires Lists(links, hosts, gone, finished) && a !in hosts && a !in finished
    ensures if host in links then Lists(links, hosts[a := host], gone + {a}, finished) else Lists(links[host := a], hosts[a := host], gone, finished)
  {
    var more, l := hosts[a := host], if host in links then links else links[host := a];
    forall b | b in hosts && Serves(links, hosts, b)
      ensures Serves(l, more, b)
    {
    }
  }

  lemma AttachLists(h: Hub, a: nat, host: nat)
    requires ListsOk(h) && a !in h.hosts && a !in h.finished
    ensures ListsOk(Attach(h, a, host))
  {
    hide Lists;
    ListsMore(h.links, h.hosts, h.gone, h.finished, a, host);
  }

  lemma AttachKnown(h: Hub, a: nat, host: nat)
    requires OnceEach(h) && Known(h)
    ensures OnceEach(Attach(h, a, host)) && Known(Attach(h, a, host))
  {
    hide PlacesOf, SeveralEvents, SeveralSlots, SeveralCalls;
    AttachPlaces(h, a, host);
  }

  /** Slots stay in order while who was excused stays so. */
  lemma SameSlots(h: Hub, u: Hub)
    requires SlotsOk(h) && u.boxes == h.boxes && u.pending == h.pending && u.told == h.told && u.origin == h.origin
    requires u.waiting == h.waiting && u.finished == h.finished && forall b :: Excused(h, b) ==> Excused(u, b)
    ensures SlotsOk(u)
  {
    hide Excused;
  }

  lemma AttachSlots(h: Hub, a: nat, host: nat)
    requires SlotsOk(h)
    ensures SlotsOk(Attach(h, a, host))
  {
    hide SlotsOk;
    SameSlots(h, Attach(h, a, host));
  }

  lemma AttachOk(h: Hub, a: nat, host: nat)
    requires HubOk(h, {}) && a !in h.hosts && a !in h.finished
    ensures HubOk(Attach(h, a, host), {})
  {
    hide PlacesOf, Apart, ListsOk, OnceEach, Known, SlotsOk;
    AttachLists(h, a, host);
    AttachPlaces(h, a, host);
    AttachKnown(h, a, host);
    AttachSlots(h, a, host);
  }

  lemma AttachPlaces(h: Hub, a: nat, host: nat)
    ensures PlacesOf(Attach(h, a, host)) == PlacesOf(h)
  {
    hide AtRegistry, InBoxes, Pending, Told;
  }

  lemma ShutdownOk(h: Hub)
    requires HubOk(h, {})
    ensures HubOk(Shutdown(h), {})
  {
    hide AtRegistry, InBoxes, Pending, Told, SeveralEvents, SeveralSlots, SeveralCalls;
  }

  datatype HubOp =
    | AttachOp(a: nat, host: nat) | ReceiveOp(a: nat, f: nat) | NextOp(refused: bool, room: bool)
    | TakeOp(k: nat, ok: bool) | RespondOp(a: nat, id: nat, valid: bool) | FailOp(a: nat) | FinishOp(a: nat)
    | RelayOp(f: nat, give: bool) | ShutdownOp

  /** Attachments and calls are new, a finished loop does nothing more, and an inbox is emptied from its head. */
  predicate HubEnabled(h: Hub, op: HubOp) {
    match op
    case AttachOp(a, _) => a !in h.hosts && a !in h.finished
    case ReceiveOp(a, f) => f !in h.origin && a in h.hosts && a !in h.finished
    case TakeOp(k, _) => k < |h.boxes| && forall j :: 0 <= j < k ==> h.boxes[j].link != h.boxes[k].link
    case RespondOp(a, _, _) => a !in h.finished
    case FinishOp(a) => a in h.hosts && a !in h.finished
    case _ => true
  }

  function HubStep(to: nat -> nat, h: Hub, op: HubOp): Hub
    requires HubEnabled(h, op)
  {
    match op
    case AttachOp(a, host) => Attach(h, a, host)
    case ReceiveOp(a, f) => Receive(h, a, f)
    case NextOp(refused, room) => Next(to, h, refused, room)
    case TakeOp(k, ok) => Take(h, k, ok)
    case RespondOp(a, id, valid) => Respond(h, a, id, valid)
    case FailOp(a) => Fail(h, a)
    case FinishOp(a) => Finish(h, a)
    case RelayOp(f, give) => Relay(h, f, give)
    case ShutdownOp => Shutdown(h)
  }

  lemma HubStepOk(to: nat -> nat, h: Hub, op: HubOp)
    requires HubOk(h, {}) && HubEnabled(h, op)
    ensures HubOk(HubStep(to, h, op), {})
  {
    hide HubOk, Attach, Receive, Next, Take, Respond, Fail, Finish, Relay, Shutdown;
    match op
    case AttachOp(a, host) => AttachOk(h, a, host);
    case ReceiveOp(a, f) => ReceiveOk(h, a, f);
    case NextOp(refused, room) => NextOk(to, h, refused, room);
    case TakeOp(k, ok) => TakeOk(h, k, ok);
    case RespondOp(a, id, valid) => RespondOk(h, a, id, valid);
    case FailOp(a) => FailOk(h, a, {});
    case FinishOp(a) => FinishOk(h, a);
    case RelayOp(f, give) => RelayOk(h, f, give);
    case ShutdownOp => ShutdownOk(h);
  }

  predicate Possible(to: nat -> nat, h: Hub, ops: seq<HubOp>)
    decreases |ops|
  {
    ops == [] || (HubEnabled(h, ops[0]) && Possible(to, HubStep(to, h, ops[0]), ops[1..]))
  }

  function Run(to: nat -> nat, h: Hub, ops: seq<HubOp>): Hub
    requires Possible(to, h, ops)
    decreases |ops|
  {
    if ops == [] then h else Run(to, HubStep(to, h, ops[0]), ops[1..])
  }

  lemma {:induction false} RunOk(to: nat -> nat, h: Hub, ops: seq<HubOp>)
    requires HubOk(h, {}) && Possible(to, h, ops)
    ensures HubOk(Run(to, h, ops), {})
    decreases |ops|
  {
    hide HubOk, HubStep, HubEnabled;
    if ops != [] {
      HubStepOk(to, h, ops[0]);
      RunOk(to, HubStep(to, h, ops[0]), ops[1..]);
    }
  }

  lemma StartOk(h: Hub)
    requires h == NewHub()
    ensures HubOk(h, {})
  {
  }

  /** Nobody holds call f any more: it is in no inbox and no table, and no reply to it is on its way. */
  predicate Settled(h: Hub, f: nat) {
    var p := PlacesOf(h);
    f !in p.reg && f !in p.box && f !in p.pend && f !in p.ready
  }

  /**
    In every run of the hub: a reply is written at most once, and only to the
    attachment that sent the call; a call that nobody holds any more was answered
    exactly once, unless that attachment was refused or removed or has failed, or
    the hub is closing; until then somebody waits for the reply; and no call is
    left in the hands of an attachment whose loop has ended.
   */
  lemma {:induction false} RepliesReachTheirOrigin(to: nat -> nat, ops: seq<HubOp>, f: nat)
    requires Possible(to, NewHub(), ops) && f in Run(to, NewHub(), ops).origin
    ensures var h := Run(to, NewHub(), ops);
      && f in h.told && (h.told[f] == [] || (|h.told[f]| == 1 && h.told[f][0].link == h.origin[f]))
      && (Settled(h, f) && !Excused(h, h.origin[f]) ==> h.told[f] != [])
      && (f in Pending(h.pending) + h.ready.Keys && !Excused(h, h.origin[f]) ==> f in h.waiting && h.told[f] == [])
      && (forall i :: 0 <= i < |h.boxes| ==> h.boxes[i].link !in h.finished) && (forall k :: k in h.pending ==> k.0 !in h.finished)
  {
    StartOk(NewHub());
    hide Run, Possible, NewHub;
    RunOk(to, NewHub(), ops);
    hide AtRegistry, InBoxes, Pending, OnceEach, ListsOk;
  }

  // ---- calls and the hosts they name ----

  predicate SlotFor(to: nat -> nat, hosts: map<nat, nat>, s: Slot) { s.item.Outgoing? ==> s.link in hosts && hosts[s.link] == to(s.item.f) }

  /** A reply that an attachment gave was given by one of the host the call names. */
  predicate ReplyFor(to: nat -> nat, hosts: map<nat, nat>, f: nat, v: Reply) { v.By? ==> v.link in hosts && hosts[v.link] == to(f) }

  ghost predicate BoxesFor(to: nat -> nat, hosts: map<nat, nat>, boxes: seq<Slot>) {
    forall i :: 0 <= i < |boxes| ==> SlotFor(to, hosts, boxes[i]) && (boxes[i].item.Back? ==> ReplyFor(to, hosts, boxes[i].item.f, boxes[i].item.value))
  }

  ghost predicate PendingFor(to: nat -> nat, hosts: map<nat, nat>, pending: map<(nat, nat), nat>) {
    forall k :: k in pending ==> k.0 in hosts && hosts[k.0] == to(pending[k])
  }

  ghost predicate EventsFor(to: nat -> nat, hosts: map<nat, nat>, registry: seq<Event>) {
    forall i :: 0 <= i < |registry| && registry[i].Answer? ==> ReplyFor(to, hosts, registry[i].f, registry[i].value)
  }

  ghost predicate ReadyFor(to: nat -> nat, hosts: map<nat, nat>, ready: map<nat, Reply>) {
    forall f :: f in ready ==> ReplyFor(to, hosts, f, ready[f])
  }

  ghost predicate ToldFor(to: nat -> nat, hosts: map<nat, nat>, told: map<nat, seq<Sent>>) {
    forall f, i :: f in told && 0 <= i < |told[f]| ==> ReplyFor(to, hosts, f, told[f][i].value)
  }

  ghost predicate LinksFor(hosts: map<nat, nat>, links: map<nat, nat>) {
    forall k :: k in links ==> links[k] in hosts && hosts[links[k]] == k
  }

  ghost predicate RoutesOk(to: nat -> nat, h: Hub) {
    && BoxesFor(to, h.hosts, h.boxes) && PendingFor(to, h.hosts, h.pending) && LinksFor(h.hosts, h.links)
    && EventsFor(to, h.hosts, h.registry) && ReadyFor(to, h.hosts, h.ready) && ToldFor(to, h.hosts, h.told)
  }

  lemma BoxMore(to: nat -> nat, hosts: map<nat, nat>, boxes: seq<Slot>, s: Slot)
    requires BoxesFor(to, hosts, boxes) && SlotFor(to, hosts, s) && (s.item.Back? ==> ReplyFor(to, hosts, s.item.f, s.item.value))
    ensures BoxesFor(to, hosts, boxes + [s])
  {
    hide SlotFor, ReplyFor;
  }

  lemma ReplyRoutes(to: nat -> nat, h: Hub, f: nat, v: Reply, room: bool)
    requires RoutesOk(to, h) && f in h.origin && ReplyFor(to, h.hosts, f, v)
    ensures RoutesOk(to, ReplyTo(h, f, v, room))
  {
    hide BoxesFor, PendingFor, EventsFor, ReadyFor, ToldFor;
    BoxMore(to, h.hosts, h.boxes, Slot(h.origin[f], Back(f, v)));
  }

  lemma ReadyMore(to: nat -> nat, hosts: map<nat, nat>, ready: map<nat, Reply>, f: nat, v: Reply)
    requires ReadyFor(to, hosts, ready) && ReplyFor(to, hosts, f, v)
    ensures ReadyFor(to, hosts, ready[f := v]) && ReadyFor(to, hosts, ready - {f})
  {
    hide ReplyFor;
  }

  lemma ForwardRoutes(to: nat -> nat, h: Hub, f: nat, refused: bool, room: bool)
    requires RoutesOk(to, h) && f in h.origin
    ensures RoutesOk(to, Forward(h, f, to(f), refused, room))
  {
    hide ReplyTo, BoxesFor, PendingFor, EventsFor, ReadyFor, ToldFor;
    ReplyRoutes(to, h, f, Unsupported, room);
    ReplyRoutes(to, h, f, UnknownHost, room);
    ReadyMore(to, h.hosts, h.ready, f, Lost);
    if to(f) in h.links {
      BoxMore(to, h.hosts, h.boxes, Slot(h.links[to(f)], Outgoing(f)));
    }
  }

  lemma EventFirst(to: nat -> nat, hosts: map<nat, nat>, registry: seq<Event>)
    requires EventsFor(to, hosts, registry) && registry != []
    ensures EventsFor(to, hosts, registry[1..]) && (registry[0].Answer? ==> ReplyFor(to, hosts, registry[0].f, registry[0].value))
  {
    hide ReplyFor;
  }

  lemma NextRoutes(to: nat -> nat, h: Hub, refused: bool, room: bool)
    requires RoutesOk(to, h)
    ensures RoutesOk(to, Next(to, h, refused, room))
  {
    hide Forward, ReplyTo, BoxesFor, PendingFor, EventsFor, ReadyFor, ToldFor, LinksFor, ReplyFor;
    if h.registry != [] && h.registry[0].f in h.origin {
      var h1 := h.(registry := h.registry[1..]);
      EventFirst(to, h.hosts, h.registry);
      match h.registry[0]
      case Asked(f) => ForwardRoutes(to, h1, f, refused, room);
      case Answer(f, v) => ReplyRoutes(to, h1, f, v, room);
    }
  }

  lemma BoxLess(to: nat -> nat, hosts: map<nat, nat>, boxes: seq<Slot>, k: nat)
    requires BoxesFor(to, hosts, boxes) && k < |boxes|
    ensures BoxesFor(to, hosts, boxes[..k] + boxes[k + 1..]) && SlotFor(to, hosts, boxes[k])
    ensures boxes[k].item.Back? ==> ReplyFor(to, hosts, boxes[k].item.f, boxes[k].item.value)
  {
    hide SlotFor, ReplyFor;
    var q := boxes[..k] + boxes[k + 1..];
    assert forall i :: 0 <= i < |q| ==> q[i] == boxes[if i < k then i else i + 1];
  }

  lemma CallMore(to: nat -> nat, hosts: map<nat, nat>, pending: map<(nat, nat), nat>, k: (nat, nat), f: nat)
    requires PendingFor(to, hosts, pending) && k.0 in hosts && hosts[k.0] == to(f)
    ensures PendingFor(to, hosts, pending[k := f])
  {
  }

  lemma ToldFurther(to: nat -> nat, hosts: map<nat, nat>, told: map<nat, seq<Sent>>, f: nat, sent: seq<Sent>)
    requires ToldFor(to, hosts, told) && forall i :: 0 <= i < |sent| ==> ReplyFor(to, hosts, f, sent[i].value)
    ensures ToldFor(to, hosts, told[f := sent]) && (f in told ==> ToldFor(to, hosts, told[f := told[f] + sent]))
  {
    hide ReplyFor;
  }

  lemma TakeRoutes(to: nat -> nat, h: Hub, k: nat, ok: bool)
    requires RoutesOk(to, h) && k < |h.boxes|
    ensures RoutesOk(to, Take(h, k, ok))
  {
    hide BoxesFor, PendingFor, EventsFor, ReadyFor, ToldFor, LinksFor;
    BoxLess(to, h.hosts, h.boxes, k);
    var a := h.boxes[k].link;
    match h.boxes[k].item
    case Outgoing(f) =>
      CallMore(to, h.hosts, h.pending, (a, h.next), f);
      ReadyMore(to, h.hosts, h.ready, f, Lost);
    case Back(f, v) =>
      ToldFurther(to, h.hosts, h.told, f, [Sent(a, v)]);
  }

  lemma RespondRoutes(to: nat -> nat, h: Hub, a: nat, id: nat, valid: bool)
    requires RoutesOk(to, h)
    ensures RoutesOk(to, Respond(h, a, id, valid))
  {
    hide BoxesFor, EventsFor, ReadyFor, ToldFor, LinksFor;
    if (a, id) in h.pending {
      ReadyMore(to, h.hosts, h.ready, h.pending[(a, id)], By(a));
    }
  }

  lemma RelayRoutes(to: nat -> nat, h: Hub, f: nat, give: bool)
    requires RoutesOk(to, h)
    ensures RoutesOk(to, Relay(h, f, give))
  {
    hide BoxesFor, PendingFor, ToldFor, LinksFor, ReplyFor;
  }

  lemma ReceiveRoutes(to: nat -> nat, h: Hub, a: nat, f: nat)
    requires RoutesOk(to, h)
    ensures RoutesOk(to, Receive(h, a, f))
  {
    hide BoxesFor, PendingFor, ReadyFor, ToldFor, LinksFor, ReplyFor;
    ToldFurther(to, h.hosts, h.told, f, []);
  }

  lemma OthersFor(to: nat -> nat, hosts: map<nat, nat>, boxes: seq<Slot>, a: nat)
    requires BoxesFor(to, hosts, boxes) && SeveralSlots(boxes)
    ensures BoxesFor(to, hosts, Others(boxes, a))
  {
    hide SlotFor, ReplyFor, Others, SeveralSlots;
    OthersMeans(boxes, a);
  }

  lemma LostFor(to: nat -> nat, hosts: map<nat, nat>, ready: map<nat, Reply>, calls: set<nat>)
    requires ReadyFor(to, hosts, ready)
    ensures ReadyFor(to, hosts, AllLost(ready, calls))
  {
  }

  lemma FinishRoutes(to: nat -> nat, h: Hub, a: nat)
    requires RoutesOk(to, h) && SeveralSlots(h.boxes)
    ensures RoutesOk(to, Finish(h, a))
  {
    hide Others, Written, Unwritten, SeveralSlots, BoxesFor, EventsFor, ReadyFor, ToldFor, AllLost;
    OthersFor(to, h.hosts, h.boxes, a);
    LostFor(to, h.hosts, h.ready, Written(h.pending, a) + Unwritten(h.boxes, a));
  }

  /** What is true of the hosts stays true when more are known. */
  lemma MoreHosts(to: nat -> nat, h: Hub, hosts: map<nat, nat>)
    requires RoutesOk(to, h) && forall b :: b in h.hosts ==> b in hosts && hosts[b] == h.hosts[b]
    ensures BoxesFor(to, hosts, h.boxes) && PendingFor(to, hosts, h.pending) && LinksFor(hosts, h.links)
    ensures EventsFor(to, hosts, h.registry) && ReadyFor(to, hosts, h.ready) && ToldFor(to, hosts, h.told)
  {
    forall f, v | ReplyFor(to, h.hosts, f, v)
      ensures ReplyFor(to, hosts, f, v)
    {
    }
  }

  lemma LinksMore(hosts: map<nat, nat>, links: map<nat, nat>, a: nat, host: nat)
    requires LinksFor(hosts, links) && a in hosts && hosts[a] == host
    ensures LinksFor(hosts, links[host := a])
  {
  }

  lemma AttachRoutes(to: nat -> nat, h: Hub, a: nat, host: nat)
    requires RoutesOk(to, h) && a !in h.hosts
    ensures RoutesOk(to, Attach(h, a, host))
  {
    hide BoxesFor, PendingFor, EventsFor, ReadyFor, ToldFor, LinksFor;
    MoreHosts(to, h, h.hosts[a := host]);
    LinksMore(h.hosts[a := host], h.links, a, host);
  }

  lemma HubStepRoutes(to: nat -> nat, h: Hub, op: HubOp)
    requires HubOk(h, {}) && RoutesOk(to, h) && HubEnabled(h, op)
    ensures RoutesOk(to, HubStep(to, h, op))
  {
    assert SeveralSlots(h.boxes);
    hide HubOk, SeveralSlots, Attach, Receive, Next, Take, Respond, Finish, Relay;
    hide BoxesFor, PendingFor, EventsFor, ReadyFor, ToldFor, LinksFor;
    match op
    case AttachOp(a, host) => AttachRoutes(to, h, a, host);
    case ReceiveOp(a, f) => ReceiveRoutes(to, h, a, f);
    case NextOp(refused, room) => NextRoutes(to, h, refused, room);
    case TakeOp(k, ok) => TakeRoutes(to, h, k, ok);
    case RespondOp(a, id, valid) => RespondRoutes(to, h, a, id, valid);
    case FinishOp(a) => FinishRoutes(to, h, a);
    case RelayOp(f, give) => RelayRoutes(to, h, f, give);
    case _ =>
  }

  lemma {:induction false} RunRoutes(to: nat -> nat, h: Hub, ops: seq<HubOp>)
    requires HubOk(h, {}) && RoutesOk(to, h) && Possible(to, h, ops)
    ensures RoutesOk(to, Run(to, h, ops))
    decreases |ops|
  {
    hide HubOk, RoutesOk, HubStep, HubEnabled;
    if ops != [] {
      HubStepOk(to, h, ops[0]);
      HubStepRoutes(to, h, ops[0]);
      RunRoutes(to, HubStep(to, h, ops[0]), ops[1..]);
    }
  }

  /**
    In every run of the hub: a call is only ever in the inbox or in the table of
    an attachment of the host it names, and a reply that an attachment gave, on
    its way or written, was given by such an attachment.
   */
  lemma {:induction false} CallsReachTheirHost(to: nat -> nat, ops: seq<HubOp>)
    requires Possible(to, NewHub(), ops)
    ensures var h := Run(to, NewHub(), ops);
      && (forall i :: 0 <= i < |h.boxes| && h.boxes[i].item.Outgoing? ==>
            h.boxes[i].link in h.hosts && h.hosts[h.boxes[i].link] == to(h.boxes[i].item.f))
      && (forall k :: k in h.pending ==> k.0 in h.hosts && h.hosts[k.0] == to(h.pending[k]))
      && (forall f, i :: f in h.told && 0 <= i < |h.told[f]| && h.told[f][i].value.By? ==>
            h.told[f][i].value.link in h.hosts && h.hosts[h.told[f][i].value.link] == to(f))
  {
    StartOk(NewHub());
    assert RoutesOk(to, NewHub());
    hide Run, Possible, NewHub;
    RunRoutes(to, NewHub(), ops);
    hide HubOk;
  }

  /** The attachment that serves a host, in the order of its inbox, has this at its end. */
  predicate HandedTo(h: Hub, host: nat, item: Item) {
    host in h.links && h.boxes != [] && h.boxes[|h.boxes| - 1] == Slot(h.links[host], item)
  }

  /**
    A call that reaches the registry from a listed attachment goes to the end of
    the inbox of the attachment that serves the host it names. If no host of that
    name is attached, or the call is not supported, the attachment that sent it
    gets just that as its reply; and if the inbox has no room, its owner is
    unlisted and the call lost. A reply that reaches the registry goes to the end
    of the inbox of the attachment that sent the call.
   */
  lemma CallIsHandedOn(to: nat -> nat, h: Hub, refused: bool, room: bool)
    requires ListsOk(h) && h.registry != [] && h.registry[0].f in h.origin && Listed(h, h.origin[h.registry[0].f])
    ensures var f, o, u := h.registry[0].f, h.origin[h.registry[0].f], Next(to, h, refused, room);
      && u.registry == h.registry[1..]
      && (h.registry[0].Answer? && room ==> HandedTo(u, h.hosts[o], Back(f, h.registry[0].value)))
      && (h.registry[0].Asked? && room && refused ==> HandedTo(u, h.hosts[o], Back(f, Unsupported)))
      && (h.registry[0].Asked? && room && !refused && to(f) !in h.links ==> HandedTo(u, h.hosts[o], Back(f, UnknownHost)))
      && (h.registry[0].Asked? && room && !refused && to(f) in h.links ==> HandedTo(u, to(f), Outgoing(f)) && f in u.waiting)
      && (h.registry[0].Asked? && !room && !refused && to(f) in h.links ==>
            to(f) !in u.links && f in u.waiting && f in u.ready && u.ready[f] == Lost)
  {
    var h1, f := h.(registry := h.registry[1..]), h.registry[0].f;
    assert Next(to, h, refused, room) == if h.registry[0].Asked? then Forward(h1, f, to(f), refused, room) else ReplyTo(h1, f, h.registry[0].value, room);
    hide Next;
    if to(f) in h.links {
      assert Listed(h1, h.links[to(f)]);
    }
    hide Lists;
  }

  /** An attachment that has not failed writes what it takes from its inbox: a call under a number of its own, a reply for good. */
  lemma MailIsWritten(h: Hub, k: nat)
    requires HubOk(h, {}) && k < |h.boxes| && h.boxes[k].link !in h.failed
    ensures var a, item, u := h.boxes[k].link, h.boxes[k].item, Take(h, k, true);
      match item
      case Outgoing(f) => (a, h.next) in u.pending && u.pending[(a, h.next)] == f && u.told == h.told
      case Back(f, v) => u.pending == h.pending && f in u.told && u.told[f] == [Sent(a, v)] && a == h.origin[f]
    ensures var a, item, u := h.boxes[k].link, h.boxes[k].item, Take(h, k, true);
      |u.boxes| == |h.boxes| - 1 && item.f !in InBoxes(u.boxes)
  {
    SlotFacts(h, k);
    TakeSlot(h, k);
    hide AtRegistry, InBoxes, Pending, SeveralEvents, SeveralSlots, SeveralCalls;
  }

  // ---- the registry object ----

  lemma OthersTake(boxes: seq<Slot>, i: nat, a: nat)
    requires i < |boxes|
    ensures Others(boxes[..i + 1], a) == Others(boxes[..i], a) + if boxes[i].link == a then [] else [boxes[i]]
    ensures Unwritten(boxes[..i + 1], a) ==
      Unwritten(boxes[..i], a) + if boxes[i].link == a && boxes[i].item.Outgoing? then {boxes[i].item.f} else {}
  {
    var q := boxes[..i + 1];
    assert q[..|q| - 1] == boxes[..i];
    assert forall j :: 0 <= j < i ==> q[j] == boxes[..i][j];
    forall f
      ensures f in Unwritten(q, a) <==> f in Unwritten(boxes[..i], a) || (boxes[i].link == a && boxes[i].item == Outgoing(f))
    {
      if f in Unwritten(boxes[..i], a) {
        var j :| 0 <= j < i && boxes[..i][j].link == a && boxes[..i][j].item.Outgoing? && boxes[..i][j].item.f == f;
        assert q[j].item.f == f;
      }
      if boxes[i].link == a && boxes[i].item == Outgoing(f) {
        assert q[i].item.f == f;
      }
    }
  }

  lemma LostMore(ready: map<nat, Reply>, lost: set<nat>, f: nat)
    ensures AllLost(ready, lost + {f}) == AllLost(ready, lost)[f := Lost] && AllLost(ready, {}) == ready
  {
  }

  lemma LostTwice(ready: map<nat, Reply>, a: set<nat>, b: set<nat>)
    ensures AllLost(AllLost(ready, a), b) == AllLost(ready, a + b)
  {
  }

  /** The calls once the entries in `left` are all that remains to be looked at for attachment a. */
  ghost predicate SettledBut(was: map<(nat, nat), nat>, left: set<(nat, nat)>, a: nat, pending: map<(nat, nat), nat>, lost: set<nat>) {
    && (forall k :: k in pending <==> k in was && (k.0 != a || k in left))
    && (forall k :: k in pending ==> pending[k] == was[k])
    && (forall f :: f in lost <==> exists k :: k in was && k.0 == a && k !in left && was[k] == f)
  }

  lemma SettledStart(was: map<(nat, nat), nat>, a: nat)
    ensures SettledBut(was, was.Keys, a, was, {})
    ensures forall ready: map<nat, Reply> :: AllLost(ready, {}) == ready
  {
  }

  lemma SettledOne(was: map<(nat, nat), nat>, left: set<(nat, nat)>, a: nat, pending: map<(nat, nat), nat>, lost: set<nat>, k: (nat, nat))
    requires SettledBut(was, left, a, pending, lost) && k in left && k in was
    ensures if k.0 == a then k in pending && SettledBut(was, left - {k}, a, pending - {k}, lost + {pending[k]})
            else SettledBut(was, left - {k}, a, pending, lost)
  {
    if k.0 == a {
      forall f
        ensures f in lost + {pending[k]} <==> exists j :: j in was && j.0 == a && j !in left - {k} && was[j] == f
      {
        if f in lost {
          var j :| j in was && j.0 == a && j !in left && was[j] == f;
          assert j !in left - {k};
        }
      }
    }
  }

  lemma SettledEnd(was: map<(nat, nat), nat>, a: nat, pending: map<(nat, nat), nat>, lost: set<nat>)
    requires SettledBut(was, {}, a, pending, lost)
    ensures pending == (map k | k in was && k.0 != a :: was[k]) && lost == Written(was, a)
  {
    forall f ensures f in lost <==> f in Written(was, a) {
      if f in lost {
        var k :| k in was && k.0 == a && was[k] == f;
      }
    }
  }

  class Registry {
    var links: map<nat, nat>
    var hosts: map<nat, nat>
    var gone: set<nat>
    var failed: set<nat>
    var finished: set<nat>
    var closing: bool
    var origin: map<nat, nat>
    var registry: seq<Event>
    var boxes: seq<Slot>
    var pending: map<(nat, nat), nat>
    var next: nat
    var ready: map<nat, Reply>
    var waiting: set<nat>
    ghost var told: map<nat, seq<Sent>>

    ghost function Snapshot(): Hub
      reads this
    {
      Hub(links, hosts, gone, failed, finished, closing, origin, registry, boxes, pending, next, ready, waiting, told)
    }

    constructor ()
      ensures Snapshot() == NewHub()
    {
      links, hosts, gone, failed, finished, closing := map[], map[], {}, {}, {}, false;
      origin, registry, boxes, pending, next, ready, waiting, told := map[], [], [], map[], 0, map[], {}, map[];
    }

    /** A host's second attachment is refused while the first is listed. */
    method Ready(a: nat, host: nat) returns (accepted: bool)
      modifies this`links, this`hosts, this`gone
      ensures Snapshot() == Attach(old(Snapshot()), a, host) && accepted == (host !in old(links))
    {
      hosts := hosts[a := host];
      accepted := host !in links;
      if accepted {
        links := links[host := a];
      } else {
        gone := gone + {a};
      }
    }

    method Remove(a: nat)
      modifies this`links, this`gone
      ensures Snapshot() == Removed(old(Snapshot()), a)
    {
      if a in hosts && hosts[a] in links && links[hosts[a]] == a {
        links := links - {hosts[a]};
        gone := gone + {a};
      }
    }

    method Reply(f: nat, v: Reply, room: bool)
      requires f in origin
      modifies this`links, this`gone, this`boxes
      ensures Snapshot() == ReplyTo(old(Snapshot()), f, v, room)
    {
      var o := origin[f];
      if o in hosts && hosts[o] in links && links[hosts[o]] == o && room {
        boxes := boxes + [Slot(o, Back(f, v))];
        return;
      }
      Remove(o);
    }

    method Route(f: nat, host: nat, refused: bool, room: bool)
      requires f in origin
      modifies this`links, this`gone, this`boxes, this`ready, this`waiting
      ensures Snapshot() == Forward(old(Snapshot()), f, host, refused, room)
    {
      hide Removed, ReplyTo;
      var o := origin[f];
      if o !in hosts || hosts[o] !in links || links[hosts[o]] != o {
        return;
      }
      if refused {
        Reply(f, Unsupported, room);
        return;
      }
      if host !in links {
        Reply(f, UnknownHost, room);
        return;
      }
      var destination := links[host];
      waiting := waiting + {f};
      if room {
        boxes := boxes + [Slot(destination, Outgoing(f))];
        return;
      }
      ready := ready[f := Lost];
      Remove(destination);
    }

    /** The registry's loop: one event. */
    method Handle(to: nat -> nat, refused: bool, room: bool)
      requires |registry| > 0 && registry[0].f in origin
      modifies this`registry, this`links, this`gone, this`boxes, this`ready, this`waiting
      ensures Snapshot() == Next(to, old(Snapshot()), refused, room)
    {
      var event := registry[0];
      registry := registry[1..];
      match event {
        case Asked(f) => Route(f, to(f), refused, room);
        case Answer(f, v) => Reply(f, v, room);
      }
    }

    /** Every call the attachment has written is answered as lost, in whatever order the map yields them. */
    method SettlePending(a: nat)
      modifies this`pending, this`ready
      ensures pending == (map k | k in old(pending) && k.0 != a :: old(pending)[k])
      ensures ready == AllLost(old(ready), Written(old(pending), a))
    {
      hide SettledBut, Written;
      var all := pending;
      var left := all.Keys;
      ghost var lost: set<nat> := {};
      SettledStart(all, a);
      while left != {}
        invariant left <= all.Keys && SettledBut(all, left, a, pending, lost)
        invariant ready == AllLost(old(ready), lost)
        decreases |left|
      {
        var k :| k in left;
        SettledOne(all, left, a, pending, lost, k);
        left := left - {k};
        if k.0 == a {
          LostMore(old(ready), lost, pending[k]);
          ready := ready[pending[k] := Lost];
          lost := lost + {pending[k]};
          pending := pending - {k};
        }
      }
      SettledEnd(all, a, pending, lost);
    }

    /** The attachment's inbox is emptied: calls are answered as lost, replies are dropped. */
    method SettleQueued(a: nat)
      modifies this`boxes, this`ready
      ensures boxes == Others(old(boxes), a)
      ensures ready == AllLost(old(ready), Unwritten(old(boxes), a))
    {
      hide Others, Unwritten;
      var all := boxes;
      boxes := [];
      assert all[..0] == [];
      EmptyBoxes(a);
      var i := 0;
      while i < |all|
        invariant 0 <= i <= |all| && boxes == Others(all[..i], a)
        invariant ready == AllLost(old(ready), Unwritten(all[..i], a))
      {
        OthersTake(all, i, a);
        if all[i].link != a {
          boxes := boxes + [all[i]];
        } else if all[i].item.Outgoing? {
          LostMore(old(ready), Unwritten(all[..i], a), all[i].item.f);
          ready := ready[all[i].item.f := Lost];
        }
        i := i + 1;
      }
      assert all[..i] == all;
    }

    /** A loop ends: the attachment leaves the registry, and nothing is left in its hands. */
    method EndLink(a: nat)
      modifies this
      ensures Snapshot() == Finish(old(Snapshot()), a)
    {
      hide Others, Unwritten, Written;
      Remove(a);
      gone := gone + {a};
      SettlePending(a);
      SettleQueued(a);
      LostTwice(old(ready), Written(old(pending), a), Unwritten(old(boxes), a));
      finished := finished + {a};
    }
  }

  lemma EmptyBoxes(a: nat)
    ensures Others([], a) == [] && Unwritten([], a) == {}
    ensures forall ready: map<nat, Reply> :: AllLost(ready, {}) == ready
  {
  }
}
