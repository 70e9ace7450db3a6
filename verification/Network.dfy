/**
  Any number of lanes on any number of hosts, and the messages between them. A
  message is sent by somebody outside, by a lane whose run has ended (a notice),
  or by a daemon that copies a settled send to a parent (a trace copy). Two
  things are proved for every run of the network: notices do not start runs that
  send notices, and copies are not copied.
 */
module Network {
  import opened Common
  import opened RunIds
  import opened SessionModel
  import opened SessionProofs
  import opened WorkerModel
  import opened LaneLink
  import opened LaneOrder
  import opened Notices
  import opened Provenance
  import opened ForwardFrames
  import opened SendContext

  /** Why a message was sent: not seen by anybody, only used to state what the marks mean. */
  datatype Origin = Outside | Notice(lane: nat, charge: Charge) | CopyOf(letter: nat)

  /** Whether a send for this reason may be traced. */
  predicate MayTrace(origin: Origin) { origin.Outside? || (origin.Notice? && origin.charge.traced) }

  /** Where a message, or a part of one, is: with a sending session, or on its way to another host. */
  datatype Place =
    | Sending(context: Context)
    | Leaving(request: PublicRequest) | ToHub(frame: Frame) | AtHub(request: PublicRequest)
    | ToLink(request: PublicRequest) | ToDaemon(frame: Frame)
    | Over

  datatype Letter = Letter(origin: Origin, root: bool, host: nat, place: Place)

  /**
    `arrived` are the deliveries routed to each lane, by reply ticket. `posted`
    is the message sent for each notice a lane was charged. `traced` are the
    sends a trace was begun for, `matched` those that added a traced child to one.
   */
  datatype Net = Net(lanes: map<nat, System>, arrived: map<nat, map<nat, Origin>>, letters: map<nat, Letter>,
                     posted: map<(nat, Charge), nat>, traced: set<nat>, matched: set<nat>)

  /** The lanes' surroundings and hosts, and what the hosts' links negotiated. */
  datatype World = World(env: nat -> Env, host: nat -> nat, caps: nat -> Caps)

  datatype Op =
    | OpenOp(lane: nat) | LaneOp(lane: nat, step: Step, id: nat) | PostOp(id: nat, host: nat)
    | LocalLegOp(id: nat, part: nat) | RemoteLegOp(id: nat, part: nat, shape: Shape)
    | OutOp(id: nat, fits: PublicRequest -> bool, lost: bool) | HubInOp(id: nat) | ForwardOp(id: nat, found: Option<nat>)
    | LinkOutOp(id: nat, down: bool, fits: PublicRequest -> bool, lost: bool) | AdmitOp(id: nat)
    | DeliverOp(id: nat, lane: nat, ticket: nat)
    | BeginOp(id: nat) | MatchOp(id: nat) | CopyOp(id: nat, copy: nat, destination: Destination)

  function Shifted(n: Net, id: nat, host: nat, place: Place): Net
    requires id in n.letters
  {
    n.(letters := n.letters[id := n.letters[id].(host := host, place := place)])
  }

  function Written(n: Net, id: nat, l: Letter): Net { n.(letters := n.letters[id := l]) }

  predicate SendsFrom(n: Net, id: nat) { id in n.letters && n.letters[id].place.Sending? }

  /** A delivery reaches a lane through the network only. */
  predicate Direct(step: Step) { step.Daemon? && step.event.Routed? && step.event.request.verb == Deliver }

  function StepLane(w: World, n: Net, a: nat, step: Step, id: nat): Net {
    if a !in n.lanes || !Honest(step) || Direct(step) || id in n.letters then n else
    var s := n.lanes[a];
    var u := Next(w.env(a), s, step);
    var n1 := n.(lanes := n.lanes[a := u]);
    if |u.d.books.notices| <= |s.d.books.notices| then n1 else
    var c := u.d.books.notices[|s.d.books.notices|];
    n1.(letters := n.letters[id := Letter(Notice(a, c), true, w.host(a), Sending(ForNotice(c.traced)))], posted := n.posted[(a, c) := id])
  }

  function Delivery(ticket: nat, a: nat, c: Context): Request {
    Request(ticket, a, Deliver, None, None, false, false, c.completion, c.copy.Some?)
  }

  function Arrive(w: World, n: Net, id: nat, a: nat, ticket: nat): Net {
    if !SendsFrom(n, id) || a !in n.lanes || a !in n.arrived || w.host(a) != n.letters[id].host || ticket in n.arrived[a] then n else
    n.(lanes := n.lanes[a := Next(w.env(a), n.lanes[a], Daemon(Routed(Delivery(ticket, a, n.letters[id].place.context))))],
       arrived := n.arrived[a := n.arrived[a][ticket := n.letters[id].origin]])
  }

  /** One hop: the message goes on, or is over. */
  function Hop<T>(n: Net, id: nat, host: nat, o: Outcome<T>, next: T -> Place): (m: Net)
    requires id in n.letters
    ensures m == n.(letters := m.letters)
  {
    match o
    case Stopped(_) => Shifted(n, id, n.letters[id].host, Over)
    case Went(v) => Shifted(n, id, host, next(v))
  }

  function After(w: World, n: Net, op: Op): Net {
    match op
    case OpenOp(a) => if a in n.lanes then n else n.(lanes := n.lanes[a := Opened(a)], arrived := n.arrived[a := map[]])
    case LaneOp(a, step, id) => StepLane(w, n, a, step, id)
    case PostOp(id, host) => if id in n.letters then n else Written(n, id, Letter(Outside, true, host, Sending(Own())))
    case LocalLegOp(id, part) =>
      if !SendsFrom(n, id) || part in n.letters then n else
      Written(n, part, Letter(n.letters[id].origin, false, n.letters[id].host, Sending(LocalLeg(n.letters[id].place.context))))
    case RemoteLegOp(id, part, shape) =>
      if !SendsFrom(n, id) || part in n.letters then n else
      Written(n, part, Letter(n.letters[id].origin, false, n.letters[id].host, Leaving(RemoteLeg(n.letters[id].place.context, shape))))
    case OutOp(id, fits, lost) =>
      if id !in n.letters || !n.letters[id].place.Leaving? then n else
      Hop(n, id, n.letters[id].host, DaemonOut(w.caps(n.letters[id].host), n.letters[id].place.request, fits, lost), f => ToHub(f))
    case HubInOp(id) =>
      if id !in n.letters || !n.letters[id].place.ToHub? then n else
      Hop(n, id, n.letters[id].host, HubIn(n.letters[id].place.frame), r => AtHub(r))
    case ForwardOp(id, host) =>
      if id !in n.letters || !n.letters[id].place.AtHub? then n else
      Hop(n, id, if host.Some? then host.value else 0,
          HubForward(w.caps(n.letters[id].host), if host.Some? then Some(w.caps(host.value)) else None, n.letters[id].place.request), r => ToLink(r))
    case LinkOutOp(id, down, fits, lost) =>
      if id !in n.letters || !n.letters[id].place.ToLink? then n else
      Hop(n, id, n.letters[id].host, LinkOut(w.caps(n.letters[id].host), n.letters[id].place.request, down, fits, lost), f => ToDaemon(f))
    case AdmitOp(id) =>
      if id !in n.letters || !n.letters[id].place.ToDaemon? then n else
      Hop(n, id, n.letters[id].host, DaemonIn(w.caps(n.letters[id].host), n.letters[id].place.frame), r => Sending(Admitted(r)))
    case DeliverOp(id, a, ticket) => Arrive(w, n, id, a, ticket)
    case BeginOp(id) =>
      if !SendsFrom(n, id) || !Begins(n.letters[id].place.context) then n else n.(traced := n.traced + {id})
    case MatchOp(id) =>
      if !SendsFrom(n, id) || !Gathers(n.letters[id].place.context, id in n.traced) then n
      else n.(matched := n.matched + {id})
    case CopyOp(id, copy, d) =>
      if !SendsFrom(n, id) || id !in n.traced || copy in n.letters then n
      else Written(n, copy, Letter(CopyOf(id), true, n.letters[id].host, Sending(ForCopy(d))))
  }

  function Ran(w: World, n: Net, ops: seq<Op>): Net
    decreases |ops|
  {
    if ops == [] then n else After(w, Ran(w, n, ops[..|ops| - 1]), ops[|ops| - 1])
  }

  function Empty(): Net { Net(map[], map[], map[], map[], {}, {}) }

  // ---- what every step keeps ----

  /** The marks say what the message is. */
  predicate Suits(completion: bool, copy: Option<Destination>, collect: bool, origin: Origin) {
    completion == origin.Notice? && copy.Some? == origin.CopyOf? && (collect ==> MayTrace(origin))
  }

  predicate Fits(r: PublicRequest, origin: Origin) { Suits(r.completion, r.copy, r.trace, origin) }

  ghost predicate PlaceOk(l: Letter) {
    match l.place
    case Sending(c) => 
      && Suits(c.completion, c.copy, c.collect, l.origin) && (l.root <==> !c.numbered)
      && (c.numbered ==> c.forwarded) && (!c.forwarded ==> l.origin.Outside?)
    case Leaving(r) => !l.root && Fits(r, l.origin)
    case AtHub(r) => !l.root && Fits(r, l.origin)
    case ToLink(r) => !l.root && Fits(r, l.origin)
    case ToHub(f) => !l.root && (Decode(f).Some? ==> Fits(Decode(f).value, l.origin))
    case ToDaemon(f) => !l.root && (Decode(f).Some? ==> Fits(Decode(f).value, l.origin))
    case Over => !l.root
  }

  predicate Accounted(n: Net, origin: Origin) {
    && (origin.Notice? ==> (origin.lane, origin.charge) in n.posted)
    && (origin.CopyOf? ==> origin.letter in n.traced)
  }

  ghost predicate LettersOk(n: Net) {
    && (forall id :: id in n.letters ==> PlaceOk(n.letters[id]) && Accounted(n, n.letters[id].origin))
    && (forall id :: id in n.letters && n.letters[id].root && n.letters[id].origin.Notice? ==>
          (n.letters[id].origin.lane, n.letters[id].origin.charge) in n.posted
          && n.posted[(n.letters[id].origin.lane, n.letters[id].origin.charge)] == id)
    && (forall k :: k in n.posted ==>
          n.posted[k] in n.letters && n.letters[n.posted[k]].root && n.letters[n.posted[k]].origin == Notice(k.0, k.1))
    && (forall id :: id in n.traced ==> id in n.letters && n.letters[id].root && MayTrace(n.letters[id].origin))
    && (forall id :: id in n.matched ==> id in n.letters && MayTrace(n.letters[id].origin))
  }

  function MarkOf(origin: Origin): Mark { Mark(origin.Notice?, origin.CopyOf?) }

  function MarksOf(arrived: map<nat, Origin>): map<nat, Mark> { map t | t in arrived :: MarkOf(arrived[t]) }

  ghost predicate LaneOk(sys: System, arrived: map<nat, Origin>) { LinkInv(sys) && Charged(sys.d) && Flagged(sys.d, MarksOf(arrived)) }

  ghost predicate LanesOk(n: Net) {
    && n.arrived.Keys == n.lanes.Keys
    && (forall a :: a in n.lanes ==> LaneOk(n.lanes[a], n.arrived[a]))
    && (forall a, t :: a in n.arrived && t in n.arrived[a] ==> Accounted(n, n.arrived[a][t]))
    && (forall a, c :: (a, c) in n.posted <==> a in n.lanes && c in n.lanes[a].d.books.notices)
  }

  ghost predicate NetOk(n: Net) { LettersOk(n) && LanesOk(n) }

  // ---- messages ----

  lemma ShiftOk(n: Net, id: nat, host: nat, place: Place)
    requires LettersOk(n) && id in n.letters && PlaceOk(n.letters[id].(host := host, place := place))
    ensures LettersOk(Shifted(n, id, host, place))
  {
    hide PlaceOk;
  }

  lemma NewOk(n: Net, id: nat, l: Letter)
    requires LettersOk(n) && id !in n.letters && PlaceOk(l) && Accounted(n, l.origin) && !(l.root && l.origin.Notice?)
    ensures LettersOk(Written(n, id, l))
  {
    hide PlaceOk;
  }

  lemma LetterFacts(n: Net, id: nat)
    requires LettersOk(n) && id in n.letters
    ensures PlaceOk(n.letters[id]) && Accounted(n, n.letters[id].origin)
  {
    hide PlaceOk;
  }

  lemma LegsOk(n: Net, id: nat, part: nat, shape: Shape)
    requires LettersOk(n) && SendsFrom(n, id) && part !in n.letters
    ensures var l, c := n.letters[id], n.letters[id].place.context;
      && LettersOk(Written(n, part, Letter(l.origin, false, l.host, Sending(LocalLeg(c)))))
      && LettersOk(Written(n, part, Letter(l.origin, false, l.host, Leaving(RemoteLeg(c, shape)))))
  {
    hide LettersOk;
    LetterFacts(n, id);
    var l, c := n.letters[id], n.letters[id].place.context;
    NewOk(n, part, Letter(l.origin, false, l.host, Sending(LocalLeg(c))));
    NewOk(n, part, Letter(l.origin, false, l.host, Leaving(RemoteLeg(c, shape))));
  }

  /** A hop towards another host keeps the marks, or ends the message. */
  lemma HopOk(w: World, n: Net, op: Op)
    requires LettersOk(n) && (op.OutOp? || op.HubInOp? || op.ForwardOp? || op.LinkOutOp? || op.AdmitOp?)
    ensures LettersOk(After(w, n, op))
  {
    if op.id in n.letters {
      LetterFacts(n, op.id);
      var l := n.letters[op.id];
      hide LettersOk, Decode, Encode, DaemonOut, LinkOut, HubForward, SameMarks, NeedsTrace;
      match op
      case OutOp(id, fits, lost) => if l.place.Leaving? { OutHop(w, n, id, fits, lost); }
      case HubInOp(id) => if l.place.ToHub? { HubInHop(w, n, id); }
      case ForwardOp(id, found) => if l.place.AtHub? { ForwardHop(w, n, id, found); }
      case LinkOutOp(id, down, fits, lost) => if l.place.ToLink? { LinkOutHop(w, n, id, down, fits, lost); }
      case AdmitOp(id) => if l.place.ToDaemon? { AdmitHop(w, n, id); }
    }
  }

  /** A frame that keeps the marks of a request reads as one that has them. */
  lemma FrameSuits(f: Frame, r: PublicRequest, origin: Origin)
    requires Fits(r, origin) && exists u :: f == Encode(u) && SameMarks(r, u)
    ensures Decode(f).Some? ==> Fits(Decode(f).value, origin)
  {
    hide Encode, Decode;
    var u :| f == Encode(u) && SameMarks(r, u);
    ForwardFrames.RoundTrip(u);
  }

  lemma OutHop(w: World, n: Net, id: nat, fits: PublicRequest -> bool, lost: bool)
    requires LettersOk(n) && id in n.letters && n.letters[id].place.Leaving?
    ensures LettersOk(After(w, n, OutOp(id, fits, lost)))
  {
    hide LettersOk, Encode, Decode, SameMarks, NeedsTrace;
    LetterFacts(n, id);
    var l := n.letters[id];
    EachPlaceKeepsMarks(w.caps(l.host), None, l.place.request, false, fits, lost);
    var o := DaemonOut(w.caps(l.host), l.place.request, fits, lost);
    hide DaemonOut;
    if o.Went? {
      FrameSuits(o.value, l.place.request, l.origin);
      ShiftOk(n, id, l.host, ToHub(o.value));
    } else {
      ShiftOk(n, id, l.host, Over);
    }
  }

  lemma LinkOutHop(w: World, n: Net, id: nat, down: bool, fits: PublicRequest -> bool, lost: bool)
    requires LettersOk(n) && id in n.letters && n.letters[id].place.ToLink?
    ensures LettersOk(After(w, n, LinkOutOp(id, down, fits, lost)))
  {
    hide LettersOk, Encode, Decode, SameMarks, NeedsTrace;
    LetterFacts(n, id);
    var l := n.letters[id];
    EachPlaceKeepsMarks(w.caps(l.host), None, l.place.request, down, fits, lost);
    var o := LinkOut(w.caps(l.host), l.place.request, down, fits, lost);
    hide LinkOut;
    if o.Went? {
      FrameSuits(o.value, l.place.request, l.origin);
      ShiftOk(n, id, l.host, ToDaemon(o.value));
    } else {
      ShiftOk(n, id, l.host, Over);
    }
  }

  lemma HubInHop(w: World, n: Net, id: nat)
    requires LettersOk(n) && id in n.letters && n.letters[id].place.ToHub?
    ensures LettersOk(After(w, n, HubInOp(id)))
  {
    hide LettersOk, Encode, Decode;
    LetterFacts(n, id);
    var l := n.letters[id];
    var o := HubIn(l.place.frame);
    ShiftOk(n, id, l.host, if o.Went? then AtHub(o.value) else Over);
  }

  lemma ForwardHop(w: World, n: Net, id: nat, found: Option<nat>)
    requires LettersOk(n) && id in n.letters && n.letters[id].place.AtHub?
    ensures LettersOk(After(w, n, ForwardOp(id, found)))
  {
    hide LettersOk, Encode, Decode;
    LetterFacts(n, id);
    var l := n.letters[id];
    var to := if found.Some? then Some(w.caps(found.value)) else None;
    EachPlaceKeepsMarks(w.caps(l.host), to, l.place.request, false, _ => true, false);
    var o := HubForward(w.caps(l.host), to, l.place.request);
    hide HubForward;
    if o.Went? {
      ShiftOk(n, id, if found.Some? then found.value else 0, ToLink(o.value));
    } else {
      ShiftOk(n, id, l.host, Over);
    }
  }

  lemma AdmitHop(w: World, n: Net, id: nat)
    requires LettersOk(n) && id in n.letters && n.letters[id].place.ToDaemon?
    ensures LettersOk(After(w, n, AdmitOp(id)))
  {
    hide LettersOk, Encode, Decode, NeedsTrace;
    LetterFacts(n, id);
    var l := n.letters[id];
    var o := DaemonIn(w.caps(l.host), l.place.frame);
    ShiftOk(n, id, l.host, if o.Went? then Sending(Admitted(o.value)) else Over);
  }

  // ---- lanes ----

  lemma LaneFlagged(e: Env, sys: System, step: Step, marks: map<nat, Mark>)
    requires Flagged(sys.d, marks) && (Direct(step) ==> From(step.event.request, marks))
    ensures Flagged(Next(e, sys, step).d, marks)
  {
    hide Flagged, Handle, Receive, Advance, Enabled;
    match step
    case Daemon(event) => if External(event) { HandleFlagged(e, sys.d, event, marks); }
    case DaemonReads => if sys.ur < |sys.w.out| { HandleFlagged(e, sys.d, EventOf(sys.w.out[sys.ur]), marks); }
    case _ =>
  }

  lemma LaneCharged(e: Env, sys: System, step: Step)
    requires LinkInv(sys) && Charged(sys.d)
    ensures Charged(Next(e, sys, step).d)
    ensures var was, now := sys.d.books.notices, Next(e, sys, step).d.books.notices;
      now == was || (!step.Daemon? && |now| == |was| + 1 && now[..|was|] == was)
  {
    hide Charged, Handle, Receive, Advance, Enabled, StreamOk, WorkerOk, Joint, DaemonOk;
    match step
    case Daemon(event) => if External(event) { ExternalCharged(e, sys.d, event); HandleCharges(e, sys.d, event); }
    case DaemonReads =>
      if sys.ur < |sys.w.out| {
        ReadsCharged(e, sys);
        HandleCharges(e, sys.d, EventOf(sys.w.out[sys.ur]));
      }
    case _ =>
  }

  /** A lane takes a step: it stays in order, and charges at most one notice, to a run not charged before. */
  lemma LaneStepOk(e: Env, sys: System, step: Step, arrived: map<nat, Origin>)
    requires LaneOk(sys, arrived) && Honest(step) && (Direct(step) ==> From(step.event.request, MarksOf(arrived)))
    ensures LaneOk(Next(e, sys, step), arrived)
    ensures var was, now := sys.d.books.notices, Next(e, sys, step).d.books.notices;
      now == was || (!step.Daemon? && |now| == |was| + 1 && now[..|was|] == was && now[|was|] !in was)
  {
    hide LinkInv, Flagged, Next, MarksOf;
    LinkStep(e, sys, step);
    LaneFlagged(e, sys, step, MarksOf(arrived));
    LaneCharged(e, sys, step);
    NewCharge(Next(e, sys, step).d, |sys.d.books.notices|);
  }

  lemma NewCharge(s: State, n: nat)
    requires Charged(s)
    ensures n < |s.books.notices| ==> s.books.notices[n] !in s.books.notices[..n]
  {
  }

  lemma ArrivedMore(sys: System, arrived: map<nat, Origin>, t: nat, origin: Origin)
    requires LaneOk(sys, arrived) && t !in arrived
    ensures LaneOk(sys, arrived[t := origin])
  {
    hide LinkInv, Charged, Flagged;
    MoreMarks(sys.d, MarksOf(arrived), t, MarkOf(origin));
    assert MarksOf(arrived[t := origin]) == MarksOf(arrived)[t := MarkOf(origin)];
  }

  lemma LaneAt(n: Net, a: nat)
    requires LanesOk(n) && a in n.lanes
    ensures a in n.arrived && LaneOk(n.lanes[a], n.arrived[a])
  {
    hide LaneOk;
  }

  lemma SameAccount(n: Net, m: Net, origin: Origin)
    requires Accounted(n, origin) && n.traced <= m.traced && n.posted.Keys <= m.posted.Keys
    ensures Accounted(m, origin)
  {
  }

  /** Lanes do not depend on the messages under way. */
  lemma SameLanes(n: Net, m: Net)
    requires LanesOk(n) && m.lanes == n.lanes && m.arrived == n.arrived && m.posted == n.posted && n.traced <= m.traced
    ensures LanesOk(m)
  {
    hide LaneOk, Accounted;
    forall a, t | a in m.arrived && t in m.arrived[a]
      ensures Accounted(m, m.arrived[a][t])
    {
      SameAccount(n, m, n.arrived[a][t]);
    }
  }

  /** Messages do not depend on the lanes. */
  lemma SameLetters(n: Net, m: Net)
    requires LettersOk(n) && m.letters == n.letters && m.posted == n.posted && m.traced == n.traced && m.matched == n.matched
    ensures LettersOk(m)
  {
    hide PlaceOk;
  }

  lemma OpenOk(n: Net, a: nat)
    requires LanesOk(n) && a !in n.lanes
    ensures LanesOk(n.(lanes := n.lanes[a := Opened(a)], arrived := n.arrived[a := map[]]))
  {
    hide LinkInv, Charged;
    StartInv(a);
    StartCharged(a);
    assert LaneOk(Opened(a), map[]);
    hide LaneOk;
  }

  /** A lane takes a step that charges nothing, with the same or more arrived. */
  lemma QuietOk(n: Net, a: nat, u: System, arrived: map<nat, Origin>)
    requires LanesOk(n) && a in n.lanes && LaneOk(u, arrived) && u.d.books.notices == n.lanes[a].d.books.notices
    requires forall t :: t in arrived ==> Accounted(n, arrived[t])
    ensures LanesOk(n.(lanes := n.lanes[a := u], arrived := n.arrived[a := arrived]))
  {
    hide LaneOk;
  }

  /** A lane takes a step that charges a notice, and the notice is sent. */
  lemma ChargeOk(n: Net, a: nat, u: System, c: Charge, id: nat)
    requires LanesOk(n) && a in n.lanes && LaneOk(u, n.arrived[a]) && u.d.books.notices == n.lanes[a].d.books.notices + [c]
    ensures LanesOk(n.(lanes := n.lanes[a := u], posted := n.posted[(a, c) := id]))
  {
    hide LaneOk, Accounted;
    var m := n.(lanes := n.lanes[a := u], posted := n.posted[(a, c) := id]);
    forall b, t | b in m.arrived && t in m.arrived[b]
      ensures Accounted(m, m.arrived[b][t])
    {
      SameAccount(n, m, n.arrived[b][t]);
    }
  }

  lemma PostOk(n: Net, a: nat, c: Charge, id: nat, host: nat)
    requires LettersOk(n) && id !in n.letters && (a, c) !in n.posted
    ensures LettersOk(n.(letters := n.letters[id := Letter(Notice(a, c), true, host, Sending(ForNotice(c.traced)))], posted := n.posted[(a, c) := id]))
  {
    var l := Letter(Notice(a, c), true, host, Sending(ForNotice(c.traced)));
    assert PlaceOk(l);
    hide PlaceOk;
  }

  // ---- every step and every run ----

  lemma LaneOpOk(w: World, n: Net, a: nat, step: Step, id: nat)
    requires NetOk(n)
    ensures NetOk(StepLane(w, n, a, step, id))
  {
    hide LettersOk, LanesOk, LaneOk, Next, MarksOf;
    if !(a !in n.lanes || !Honest(step) || Direct(step) || id in n.letters) {
      var s, u := n.lanes[a], Next(w.env(a), n.lanes[a], step);
      LaneAt(n, a);
      LaneStepOk(w.env(a), s, step, n.arrived[a]);
      var was, now := s.d.books.notices, u.d.books.notices;
      if |now| <= |was| {
        QuietLane(n, a, u);
        SameLetters(n, n.(lanes := n.lanes[a := u]));
      } else {
        var c := now[|was|];
        assert now == was + [c];
        NotPosted(n, a, c);
        ChargeOk(n, a, u, c, id);
        PostOk(n, a, c, id, w.host(a));
        var m := StepLane(w, n, a, step, id);
        SameLetters(m.(lanes := n.lanes), m);
        SameLanes(m.(letters := n.letters), m);
      }
    }
  }

  lemma NotPosted(n: Net, a: nat, c: Charge)
    requires LanesOk(n) && a in n.lanes && c !in n.lanes[a].d.books.notices
    ensures (a, c) !in n.posted
  {
    hide LaneOk, Accounted;
  }

  lemma QuietLane(n: Net, a: nat, u: System)
    requires LanesOk(n) && a in n.lanes && LaneOk(u, n.arrived[a]) && u.d.books.notices == n.lanes[a].d.books.notices
    ensures LanesOk(n.(lanes := n.lanes[a := u]))
  {
    hide LaneOk;
    var m := n.(lanes := n.lanes[a := u]);
    forall b, t | b in m.arrived && t in m.arrived[b]
      ensures Accounted(m, m.arrived[b][t])
    {
      SameAccount(n, m, n.arrived[b][t]);
    }
  }

  lemma ArrivedAccounted(n: Net, a: nat)
    requires LanesOk(n) && a in n.lanes
    ensures forall t :: t in n.arrived[a] ==> Accounted(n, n.arrived[a][t])
  {
    hide LaneOk, Accounted;
  }

  /** A message is delivered to a lane: the delivery carries the marks of its origin. */
  lemma DeliverOk(w: World, n: Net, id: nat, a: nat, ticket: nat)
    requires NetOk(n)
    ensures NetOk(Arrive(w, n, id, a, ticket))
  {
    hide LettersOk, LanesOk, LaneOk, Next, Accounted;
    var m := Arrive(w, n, id, a, ticket);
    if m != n {
      LetterFacts(n, id);
      LaneAt(n, a);
      ArrivedAccounted(n, a);
      var origin, r := n.letters[id].origin, Delivery(ticket, a, n.letters[id].place.context);
      var more := n.arrived[a][ticket := origin];
      ArrivedMore(n.lanes[a], n.arrived[a], ticket, origin);
      assert From(r, MarksOf(more));
      LaneStepOk(w.env(a), n.lanes[a], Daemon(Routed(r)), more);
      QuietOk(n, a, m.lanes[a], more);
      SameLetters(n, m);
    }
  }

  lemma TraceOpOk(w: World, n: Net, op: Op)
    requires NetOk(n) && (op.BeginOp? || op.MatchOp? || op.CopyOp?)
    ensures NetOk(After(w, n, op))
  {
    hide LanesOk, PlaceOk, Hop, StepLane, Arrive;
    var m := After(w, n, op);
    if m != n {
      LetterFacts(n, op.id);
      SendingFacts(n.letters[op.id]);
      SameLanes(n, m);
      if op.CopyOp? {
        var l := Letter(CopyOf(op.id), true, n.letters[op.id].host, Sending(ForCopy(op.destination)));
        CopyPlace(l, op.destination);
        NewOk(n, op.copy, l);
      }
    }
  }

  lemma SendingFacts(l: Letter)
    requires PlaceOk(l) && l.place.Sending?
    ensures (l.place.context.collect || !l.place.context.forwarded ==> MayTrace(l.origin)) && (l.root <==> !l.place.context.numbered)
    ensures l.place.context.numbered ==> l.place.context.forwarded
  {
  }

  lemma CopyPlace(l: Letter, d: Destination)
    requires l.root && l.origin.CopyOf? && l.place == Sending(ForCopy(d))
    ensures PlaceOk(l)
  {
  }

  lemma StepOk(w: World, n: Net, op: Op)
    requires NetOk(n)
    ensures NetOk(After(w, n, op))
  {
    hide LettersOk, LanesOk, PlaceOk, StepLane, Arrive, Hop, DaemonOut, HubIn, HubForward, LinkOut, DaemonIn;
    var m := After(w, n, op);
    match op
    case OpenOp(a) => if m != n { OpenOk(n, a); SameLetters(n, m); }
    case LaneOp(a, step, id) => LaneOpOk(w, n, a, step, id);
    case PostOp(id, host) =>
      if m != n {
        OutsidePlace(host);
        NewOk(n, id, Letter(Outside, true, host, Sending(Own())));
        SameLanes(n, m);
      }
    case LocalLegOp(id, part) => if m != n { LegsOk(n, id, part, Shape(MessageSend, None, 0, false)); SameLanes(n, m); }
    case RemoteLegOp(id, part, shape) => if m != n { LegsOk(n, id, part, shape); SameLanes(n, m); }
    case DeliverOp(id, a, ticket) => DeliverOk(w, n, id, a, ticket);
    case BeginOp(_) => TraceOpOk(w, n, op);
    case MatchOp(_) => TraceOpOk(w, n, op);
    case CopyOp(_, _, _) => TraceOpOk(w, n, op);
    case _ => HopOk(w, n, op); HopLanes(w, n, op); SameLanes(n, m);
  }

  lemma OutsidePlace(host: nat)
    ensures PlaceOk(Letter(Outside, true, host, Sending(Own())))
  {
  }

  lemma HopLanes(w: World, n: Net, op: Op)
    requires op.OutOp? || op.HubInOp? || op.ForwardOp? || op.LinkOutOp? || op.AdmitOp?
    ensures var m := After(w, n, op); m.lanes == n.lanes && m.arrived == n.arrived && m.posted == n.posted && m.traced == n.traced
  {
    hide Hop, DaemonOut, HubIn, HubForward, LinkOut, DaemonIn;
  }

  lemma {:induction false} NetSafety(w: World, ops: seq<Op>)
    ensures NetOk(Ran(w, Empty(), ops))
    decreases |ops|
  {
    hide NetOk, After;
    if ops == [] {
      EmptyOk();
    } else {
      NetSafety(w, ops[..|ops| - 1]);
      StepOk(w, Ran(w, Empty(), ops[..|ops| - 1]), ops[|ops| - 1]);
    }
  }

  lemma EmptyOk()
    ensures NetOk(Empty())
  {
  }

  // ---- what it means ----

  predicate Delivers(f: Down) { f.Call? && f.request.verb == Deliver }

  /** The message a delivery on a lane's wire belongs to. */
  predicate BelongsTo(n: Net, a: nat, f: Down, origin: Origin) {
    Delivers(f) && a in n.arrived && f.request.ticket in n.arrived[a] && n.arrived[a][f.request.ticket] == origin
  }

  /**
    In every run of the network, a delivery on any lane's wire belongs to a
    message that arrived there, and is marked as a notice, or as a trace copy, if
    and only if that message was sent as one.
   */
  lemma DeliveriesTellTheirOrigin(w: World, ops: seq<Op>, a: nat, i: nat)
    requires var n := Ran(w, Empty(), ops); a in n.lanes && i < |n.lanes[a].d.wire.sent| && Delivers(n.lanes[a].d.wire.sent[i])
    ensures var n := Ran(w, Empty(), ops); var f := n.lanes[a].d.wire.sent[i];
      && a in n.arrived && f.request.ticket in n.arrived[a]
      && MarkOf(n.arrived[a][f.request.ticket]) == Mark(f.request.completion, f.request.traceCopy)
  {
    hide Ran;
    NetSafety(w, ops);
    OriginTold(Ran(w, Empty(), ops), a, i);
  }

  lemma OriginTold(n: Net, a: nat, i: nat)
    requires LanesOk(n) && a in n.lanes && i < |n.lanes[a].d.wire.sent| && Delivers(n.lanes[a].d.wire.sent[i])
    ensures var f := n.lanes[a].d.wire.sent[i];
      && a in n.arrived && f.request.ticket in n.arrived[a]
      && MarkOf(n.arrived[a][f.request.ticket]) == Mark(f.request.completion, f.request.traceCopy)
  {
    LaneAt(n, a);
    hide LinkInv, Charged, LanesOk, Flagged;
    FrameFrom(n.lanes[a].d, MarksOf(n.arrived[a]), i);
  }

  /** No delivery that starts this run belongs to a notice. */
  ghost predicate NotByNotice(n: Net, a: nat, run: RunId) {
    a in n.lanes &&
    forall i, origin :: 0 <= i < |n.lanes[a].d.wire.sent| && Starts(n.lanes[a].d.wire.sent[i], run) && BelongsTo(n, a, n.lanes[a].d.wire.sent[i], origin) ==>
      !origin.Notice?
  }

  /**
    Notices cannot chain, however many lanes and hosts are involved. Each notice
    under way anywhere, or arrived anywhere, was charged by a run that no notice
    started; each such run sends one, and different runs send different ones.
   */
  lemma NoticesDoNotChain(w: World, ops: seq<Op>)
    ensures var n := Ran(w, Empty(), ops);
      && (forall id :: id in n.letters && n.letters[id].origin.Notice? ==>
            (n.letters[id].origin.lane, n.letters[id].origin.charge) in n.posted)
      && (forall a, t :: a in n.arrived && t in n.arrived[a] && n.arrived[a][t].Notice? ==>
            (n.arrived[a][t].lane, n.arrived[a][t].charge) in n.posted)
      && (forall a, c :: (a, c) in n.posted ==> NotByNotice(n, a, c.run))
      && (forall a, c, d :: (a, c) in n.posted && (a, d) in n.posted && c != d ==> c.run != d.run)
      && (forall k :: k in n.posted ==> n.posted[k] in n.letters && n.letters[n.posted[k]].origin == Notice(k.0, k.1))
  {
    hide Ran, LettersOk, LanesOk, NotByNotice;
    var n := Ran(w, Empty(), ops);
    NetSafety(w, ops);
    NoticesPosted(n);
    forall a, c | (a, c) in n.posted
      ensures NotByNotice(n, a, c.run)
    {
      ChargedOnce(n, a, c, c);
    }
    forall a, c, d | (a, c) in n.posted && (a, d) in n.posted && c != d
      ensures c.run != d.run
    {
      ChargedOnce(n, a, c, d);
    }
  }

  lemma NoticesPosted(n: Net)
    requires NetOk(n)
    ensures forall id :: id in n.letters && n.letters[id].origin.Notice? ==>
              (n.letters[id].origin.lane, n.letters[id].origin.charge) in n.posted
    ensures forall a, t :: a in n.arrived && t in n.arrived[a] && n.arrived[a][t].Notice? ==>
              (n.arrived[a][t].lane, n.arrived[a][t].charge) in n.posted
    ensures forall k :: k in n.posted ==> n.posted[k] in n.letters && n.letters[n.posted[k]].origin == Notice(k.0, k.1)
  {
    hide LaneOk, PlaceOk;
  }

  lemma ChargedOnce(n: Net, a: nat, c: Charge, d: Charge)
    requires LanesOk(n) && (a, c) in n.posted && (a, d) in n.posted
    ensures NotByNotice(n, a, c.run) && (c != d ==> c.run != d.run)
  {
    hide LanesOk, LinkInv, Flagged, BelongsTo, Charged, Starts;
    PostedLane(n, a, c);
    PostedLane(n, a, d);
    LaneAt(n, a);
    if c != d {
      ChargesDiffer(n.lanes[a].d, c, d);
    }
    forall i, origin | 0 <= i < |n.lanes[a].d.wire.sent| && Starts(n.lanes[a].d.wire.sent[i], c.run) && BelongsTo(n, a, n.lanes[a].d.wire.sent[i], origin)
      ensures !origin.Notice?
    {
      NotCopiedTwice(n, a, c, i, origin);
    }
  }

  lemma PostedLane(n: Net, a: nat, c: Charge)
    requires LanesOk(n)
    ensures (a, c) in n.posted <==> a in n.lanes && c in n.lanes[a].d.books.notices
  {
    hide LaneOk, Accounted;
  }

  /** What a charge says of the message that started its run. */
  lemma NotCopiedTwice(n: Net, a: nat, c: Charge, i: nat, origin: Origin)
    requires LanesOk(n) && a in n.lanes && c in n.lanes[a].d.books.notices && i < |n.lanes[a].d.wire.sent|
    requires Starts(n.lanes[a].d.wire.sent[i], c.run) && BelongsTo(n, a, n.lanes[a].d.wire.sent[i], origin)
    ensures !origin.Notice? && (origin.CopyOf? <==> !c.traced)
  {
    LaneAt(n, a);
    OriginTold(n, a, i);
    hide LanesOk, LinkInv, Flagged, Charged;
    ChargeTells(n.lanes[a].d, c, i);
  }

  /** One automatic message was sent because of another message. */
  ghost predicate CausedBy(n: Net, origin: Origin, cause: Origin) {
    match origin
    case Outside => false
    case Notice(a, c) =>
      a in n.lanes && c in n.lanes[a].d.books.notices &&
      exists i :: 0 <= i < |n.lanes[a].d.wire.sent| && Starts(n.lanes[a].d.wire.sent[i], c.run) && BelongsTo(n, a, n.lanes[a].d.wire.sent[i], cause)
    case CopyOf(id) => id in n.traced && id in n.letters && n.letters[id].origin == cause
  }

  lemma CauseOf(n: Net, origin: Origin, cause: Origin)
    requires NetOk(n)
    ensures CausedBy(n, origin, cause) ==>
      if origin.Notice? then !cause.Notice? && (cause.CopyOf? <==> !origin.charge.traced) else origin.CopyOf? && MayTrace(cause)
  {
    if CausedBy(n, origin, cause) && origin.Notice? {
      hide LettersOk, LanesOk, BelongsTo, Starts;
      var i :| 0 <= i < |n.lanes[origin.lane].d.wire.sent| && Starts(n.lanes[origin.lane].d.wire.sent[i], origin.charge.run)
        && BelongsTo(n, origin.lane, n.lanes[origin.lane].d.wire.sent[i], cause);
      NotCopiedTwice(n, origin.lane, origin.charge, i, cause);
    } else {
      hide LanesOk, PlaceOk;
    }
  }

  /**
    Nor can notices and copies together go on for ever: a chain of automatic
    messages, each caused by the one before, has at most three. If it has three,
    they are the notice of a run that an outside message started, a copy of that
    notice, and the notice of the run the copy started, which is not traced.
   */
  lemma AutomaticMessagesEnd(w: World, ops: seq<Op>, o0: Origin, o1: Origin, o2: Origin, o3: Origin)
    requires var n := Ran(w, Empty(), ops); CausedBy(n, o1, o0) && CausedBy(n, o2, o1) && CausedBy(n, o3, o2)
    ensures o0.Outside? && o1.Notice? && o2.CopyOf? && o3.Notice? && o1.charge.traced && !o3.charge.traced
    ensures forall o4 :: !CausedBy(Ran(w, Empty(), ops), o4, o3)
  {
    hide Ran, CausedBy, NetOk;
    var n := Ran(w, Empty(), ops);
    NetSafety(w, ops);
    NoCause(n, o0);
    CauseOf(n, o1, o0);
    CauseOf(n, o2, o1);
    CauseOf(n, o3, o2);
    forall o4
      ensures !CausedBy(n, o4, o3)
    {
      CauseOf(n, o4, o3);
    }
  }

  lemma NoCause(n: Net, cause: Origin)
    ensures !CausedBy(n, Outside, cause)
  {
  }

  /** Trace copies: each is of a send that began a trace, and no send of a copy begins one or adds to one. */
  lemma CopiesAreNotCopied(w: World, ops: seq<Op>, id: nat)
    requires var n := Ran(w, Empty(), ops); id in n.letters && n.letters[id].origin.CopyOf?
    ensures var n := Ran(w, Empty(), ops); var k := n.letters[id].origin.letter;
      && id !in n.traced && id !in n.matched && k in n.traced && k in n.letters && n.letters[k].root && MayTrace(n.letters[k].origin)
  {
    hide Ran, LanesOk, PlaceOk;
    NetSafety(w, ops);
  }
}
