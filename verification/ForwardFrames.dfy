/**
  A request forwarded between hosts and its two private marks: the completion
  mark of an automatic notice and the destination of a trace copy. The request
  travels as an object whose keys are matched without regard to case when it is
  decoded, and literally when its marks are checked.
 */
module ForwardFrames {
  import opened Common

  datatype Method = MessageSend | LaneSpawn(wantsTrace: bool) | TraceConfigure | OtherMethod

  /** What the checks look at in the parameters of a request. */
  datatype Shape = Shape(verb: Method, target: Option<nat>, targets: nat, group: bool)

  /** Whom a trace copy is for: a session and the lifetime it must still have. */
  datatype Destination = Destination(session: nat, lifetime: nat)

  datatype PublicRequest = PublicRequest(shape: Shape, completion: bool, trace: bool, copy: Option<Destination>)

  /** A value of the encoded object, as far as the marks are concerned. */
  datatype Value = Bool(b: bool) | Null | Dest(d: Destination) | Junk

  datatype Field = Field(key: string, value: Value)

  /** The encoded request: its method and parameters, and whatever other fields it has, in order. */
  datatype Frame = Frame(shape: Shape, fields: seq<Field>)

  // ---- encoding ----

  function Add(fields: seq<Field>, on: bool, f: Field): seq<Field> { if on then fields + [f] else fields }

  function DestOf(copy: Option<Destination>): Value { if copy.Some? then Dest(copy.value) else Null }

  /** Marks that are not set are left out. */
  function Encode(r: PublicRequest): Frame {
    var a := Add([], r.completion, Field("completion", Bool(true)));
    var b := Add(a, r.trace, Field("trace", Bool(true)));
    Frame(r.shape, Add(b, r.copy.Some?, Field("trace_copy", DestOf(r.copy))))
  }

  // ---- decoding ----

  function Lower(c: char): char { if 'A' <= c <= 'Z' then (c as int + 32) as char else c }

  function Folded(key: string): string { seq(|key|, i requires 0 <= i < |key| => Lower(key[i])) }

  const MARKS: set<string> := {"completion", "trace", "trace_copy"}

  /** A key no mark answers to, or a value of the wrong kind, makes the whole object unreadable. */
  predicate Readable(f: Field) {
    && Folded(f.key) in MARKS
    && (f.value == Null || (if Folded(f.key) == "trace_copy" then f.value.Dest? else f.value.Bool?))
  }

  /** The flag a struct field ends up with: the last value under its name, in any case; null leaves it alone. */
  function Flag(fields: seq<Field>, name: string): bool {
    if fields == [] then false else
    var f := fields[|fields| - 1];
    if Folded(f.key) == name && f.value.Bool? then f.value.b else Flag(fields[..|fields| - 1], name)
  }

  /** A null destination takes back an earlier one. */
  function Copy(fields: seq<Field>): Option<Destination> {
    if fields == [] then None else
    var f := fields[|fields| - 1];
    if Folded(f.key) != "trace_copy" then Copy(fields[..|fields| - 1])
    else if f.value.Dest? then Some(f.value.d) else None
  }

  /** The last value under exactly this key. */
  function Literal(fields: seq<Field>, name: string): Option<Value> {
    if fields == [] then None else
    var f := fields[|fields| - 1];
    if f.key == name then Some(f.value) else Literal(fields[..|fields| - 1], name)
  }

  /** A notice is one message to one session, and no copy. */
  predicate CompletionShape(s: Shape) { s.verb == MessageSend && !s.group && (s.target.Some? || s.targets == 1) }

  predicate CopyShape(s: Shape, d: Destination) { s.verb == MessageSend && s.target == Some(d.session) && !s.group && s.targets == 0 }

  predicate CompletionOk(r: PublicRequest, fields: seq<Field>) {
    match Literal(fields, "completion")
    case None => !r.completion
    case Some(v) => v == Bool(true) && r.completion && r.copy.None? && CompletionShape(r.shape)
  }

  predicate TraceOk(r: PublicRequest, fields: seq<Field>) {
    && (Literal(fields, "trace").Some? ==> Literal(fields, "trace").value == Bool(true) && r.trace)
    && (Literal(fields, "trace_copy").Some? ==> Literal(fields, "trace_copy").value != Null && r.copy.Some?)
    && (r.trace ==> r.shape.verb == MessageSend && r.copy.None?)
    && (r.copy.Some? ==> CopyShape(r.shape, r.copy.value))
  }

  function Decode(f: Frame): Option<PublicRequest> {
    if exists i :: 0 <= i < |f.fields| && !Readable(f.fields[i]) then None else
    var r := PublicRequest(f.shape, Flag(f.fields, "completion"), Flag(f.fields, "trace"), Copy(f.fields));
    if TraceOk(r, f.fields) && CompletionOk(r, f.fields) then Some(r) else None
  }

  /** Requests whose marks go together with what they ask for. */
  predicate Proper(r: PublicRequest) {
    && (r.completion ==> r.copy.None? && CompletionShape(r.shape))
    && (r.trace ==> r.shape.verb == MessageSend && r.copy.None?)
    && (r.copy.Some? ==> CopyShape(r.shape, r.copy.value))
  }

  lemma PlainKeys()
    ensures Folded("completion") == "completion" && Folded("trace") == "trace" && Folded("trace_copy") == "trace_copy"
    ensures "completion" != "trace" && "trace" != "trace_copy" && "completion" != "trace_copy"
  {
    assert |"completion"| == 10 && |"trace"| == 5 && |"trace_copy"| == 10 && "completion"[0] == 'c' && "trace_copy"[0] == 't';
  }

  lemma FlagMore(fields: seq<Field>, f: Field, name: string)
    ensures Flag(fields + [f], name) == if Folded(f.key) == name && f.value.Bool? then f.value.b else Flag(fields, name)
    ensures Literal(fields + [f], name) == if f.key == name then Some(f.value) else Literal(fields, name)
    ensures Copy(fields + [f]) == if Folded(f.key) != "trace_copy" then Copy(fields) else if f.value.Dest? then Some(f.value.d) else None
  {
    assert (fields + [f])[..|fields|] == fields;
  }

  lemma NoFields(name: string)
    ensures !Flag([], name) && Literal([], name).None? && Copy([]).None?
  {
  }

  /** What the encoding of a request says under one name. */
  lemma EncodedName(r: PublicRequest, name: string)
    ensures var fields := Encode(r).fields;
      && Flag(fields, name) == ((name == "completion" && r.completion) || (name == "trace" && r.trace)) && Copy(fields) == r.copy
      && Literal(fields, name) ==
           (if name == "completion" && r.completion then Some(Bool(true)) else if name == "trace" && r.trace then Some(Bool(true))
            else if name == "trace_copy" && r.copy.Some? then Some(Dest(r.copy.value)) else None)
  {
    hide Folded, Flag, Literal, Copy;
    PlainKeys();
    NoFields(name);
    var a := Add([], r.completion, Field("completion", Bool(true)));
    var b := Add(a, r.trace, Field("trace", Bool(true)));
    FlagMore([], Field("completion", Bool(true)), name);
    FlagMore(a, Field("trace", Bool(true)), name);
    FlagMore(b, Field("trace_copy", DestOf(r.copy)), name);
  }

  lemma EncodedReadable(r: PublicRequest)
    ensures forall i :: 0 <= i < |Encode(r).fields| ==> Readable(Encode(r).fields[i])
  {
    PlainKeys();
    hide Folded;
  }

  /** Decoding takes back what encoding wrote, marks included, exactly for requests whose marks suit what they ask for. */
  lemma RoundTrip(r: PublicRequest)
    ensures Decode(Encode(r)) == if Proper(r) then Some(r) else None
  {
    hide Flag, Literal, Copy, Readable, Encode;
    PlainKeys();
    EncodedReadable(r);
    EncodedName(r, "completion");
    EncodedName(r, "trace");
    EncodedName(r, "trace_copy");
    EncodedShape(r);
  }

  lemma EncodedShape(r: PublicRequest)
    ensures Encode(r).shape == r.shape
  {
  }

  /** However an object is written, a request read from it is marked exactly if the object says so under the literal key. */
  lemma MarkIsLiteral(f: Frame)
    ensures Decode(f).Some? ==> (Decode(f).value.completion <==> Literal(f.fields, "completion") == Some(Bool(true)))
    ensures Decode(f).Some? ==> Proper(Decode(f).value)
  {
    hide Flag, Literal, Copy, Readable;
  }

  // ---- the five places a forwarded request passes ----

  /** What a link negotiated: completion marks, and tracing. */
  datatype Caps = Caps(wake: bool, trace: bool)

  datatype Outcome<T> = Stopped(code: int) | Went(value: T)

  /** Requests that are pointless without tracing. */
  predicate NeedsTrace(r: PublicRequest) {
    r.copy.Some? || r.shape.verb == TraceConfigure || (r.shape.verb.LaneSpawn? && r.shape.verb.wantsTrace)
  }

  function Untraced(r: PublicRequest): PublicRequest { r.(trace := false) }

  /** The wish for a trace is dropped where the link cannot trace, or where the frame would be too large with it. */
  function Sized(r: PublicRequest, fits: PublicRequest -> bool): Option<PublicRequest> {
    if fits(r) then Some(r) else if r.trace && fits(Untraced(r)) then Some(Untraced(r)) else None
  }

  /** The origin daemon's end of its link; `lost` says that the frame could not be sent (daemon_link.go). */
  function DaemonOut(caps: Caps, r: PublicRequest, fits: PublicRequest -> bool, lost: bool): Outcome<Frame> {
    if r.completion && !caps.wake then Stopped(FORWARD_LOST)
    else if NeedsTrace(r) && !caps.trace then Stopped(UNSUPPORTED_TRACE)
    else
      var r1 := if r.trace && !caps.trace then Untraced(r) else r;
      match Sized(r1, fits)
      case None => Stopped(INVALID_FRAME)
      case Some(r2) => if lost then Stopped(FORWARD_LOST) else Went(Encode(r2))
  }

  /** The hub's end of the origin's link reads the frame (hub.go). */
  function HubIn(f: Frame): Outcome<PublicRequest> {
    match Decode(f)
    case None => Stopped(INVALID_FRAME)
    case Some(r) => Went(r)
  }

  /** The registry checks both links before it hands the request on (hub.go). */
  function HubForward(origin: Caps, destination: Option<Caps>, r: PublicRequest): Outcome<PublicRequest> {
    if r.completion && !origin.wake then Stopped(FORWARD_LOST)
    else if NeedsTrace(r) && !origin.trace then Stopped(UNSUPPORTED_TRACE)
    else
      var r1 := if r.trace && !origin.trace then Untraced(r) else r;
      if destination.None? then Stopped(UNKNOWN_HOST)
      else if r1.completion && !destination.value.wake then Stopped(FORWARD_LOST)
      else if NeedsTrace(r1) && !destination.value.trace then Stopped(UNSUPPORTED_TRACE)
      else Went(if r1.trace && origin.trace && !destination.value.trace then Untraced(r1) else r1)
  }

  /** The hub's end of the destination's link; `down` says that it has failed or holds too many calls (hub.go). */
  function LinkOut(caps: Caps, r: PublicRequest, down: bool, fits: PublicRequest -> bool, lost: bool): Outcome<Frame> {
    if r.completion && !caps.wake then Stopped(FORWARD_LOST)
    else if NeedsTrace(r) && !caps.trace then Stopped(UNSUPPORTED_TRACE)
    else
      var r1 := if r.trace && !caps.trace then Untraced(r) else r;
      if down then Stopped(FORWARD_LOST)
      else match Sized(r1, fits)
        case None => Stopped(INVALID_FRAME)
        case Some(r2) => if lost then Stopped(FORWARD_LOST) else Went(Encode(r2))
  }

  /** The destination daemon's end of its link (daemon_link.go). */
  function DaemonIn(caps: Caps, f: Frame): Outcome<PublicRequest> {
    match Decode(f)
    case None => Stopped(INVALID_FRAME)
    case Some(r) =>
      if r.completion && !caps.wake then Stopped(FORWARD_LOST)
      else if NeedsTrace(r) && !caps.trace then Stopped(UNSUPPORTED_TRACE)
      else Went(if r.trace && !caps.trace then Untraced(r) else r)
  }

  /** The whole way of a request from one daemon to another. */
  function Travel(a: Caps, b: Option<Caps>, r: PublicRequest, fitsA: PublicRequest -> bool, lostA: bool,
                  down: bool, fitsB: PublicRequest -> bool, lostB: bool): Outcome<PublicRequest>
  {
    match DaemonOut(a, r, fitsA, lostA)
    case Stopped(code) => Stopped(code)
    case Went(f) =>
      match HubIn(f)
      case Stopped(code) => Stopped(code)
      case Went(r1) =>
        match HubForward(a, b, r1)
        case Stopped(code) => Stopped(code)
        case Went(r2) =>
          if b.None? then Stopped(UNKNOWN_HOST) else
          match LinkOut(b.value, r2, down, fitsB, lostB)
          case Stopped(code) => Stopped(code)
          case Went(g) => DaemonIn(b.value, g)
  }

  /** The request apart from its wish for a trace. */
  predicate SameMarks(r: PublicRequest, u: PublicRequest) { u.shape == r.shape && u.completion == r.completion && u.copy == r.copy && (u.trace ==> r.trace) }

  /** Each place passes the marks on as they are, or stops the request. */
  lemma EachPlaceKeepsMarks(a: Caps, b: Option<Caps>, r: PublicRequest, down: bool, fits: PublicRequest -> bool, lost: bool)
    ensures DaemonOut(a, r, fits, lost).Went? ==> exists u :: DaemonOut(a, r, fits, lost).value == Encode(u) && SameMarks(r, u)
    ensures HubForward(a, b, r).Went? ==> SameMarks(r, HubForward(a, b, r).value) && b.Some?
    ensures LinkOut(a, r, down, fits, lost).Went? ==> exists u :: LinkOut(a, r, down, fits, lost).value == Encode(u) && SameMarks(r, u)
    ensures DaemonIn(a, Encode(r)).Went? ==> SameMarks(r, DaemonIn(a, Encode(r)).value)
    ensures HubIn(Encode(r)).Went? ==> HubIn(Encode(r)).value == r
  {
    hide Encode, Decode;
    RoundTrip(r);
    var r1 := if r.trace && !a.trace then Untraced(r) else r;
    if Sized(r1, fits).Some? {
      var u := Sized(r1, fits).value;
      assert SameMarks(r, u);
    }
  }

  /**
    From daemon to daemon a request is passed if and only if the destination is
    known, no link on the way fails, both links understand its marks, its marks suit what it
    asks for, and it fits; and then its marks arrive as they were set. Only the
    wish for a trace can be lost on the way.
   */
  lemma MarkIsNeverStripped(a: Caps, b: Option<Caps>, r: PublicRequest, fitsA: PublicRequest -> bool, lostA: bool,
                            down: bool, fitsB: PublicRequest -> bool, lostB: bool)
    ensures var sent := Sized(if a.trace then r else Untraced(r), fitsA);
      Travel(a, b, r, fitsA, lostA, down, fitsB, lostB).Went? <==>
        && b.Some? && !lostA && !down && !lostB && (r.completion ==> a.wake && b.value.wake) && (NeedsTrace(r) ==> a.trace && b.value.trace)
        && sent.Some? && Proper(sent.value) && Sized(if b.value.trace then sent.value else Untraced(sent.value), fitsB).Some?
    ensures Travel(a, b, r, fitsA, lostA, down, fitsB, lostB).Went? ==> SameMarks(r, Travel(a, b, r, fitsA, lostA, down, fitsB, lostB).value)
  {
    hide Encode, Decode, Proper;
    forall u: PublicRequest
      ensures Decode(Encode(u)) == if Proper(u) then Some(u) else None
    {
      RoundTrip(u);
    }
    forall u: PublicRequest
      ensures Proper(u) ==> Proper(Untraced(u))
    {
      UntracedProper(u);
    }
  }

  lemma UntracedProper(r: PublicRequest)
    ensures Proper(r) ==> Proper(Untraced(r))
  {
  }
}
