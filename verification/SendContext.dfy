/**
  The sessions that messages are sent through. What such a session was created
  with decides which marks its messages carry and whether they are traced.
 */
module SendContext {
  import opened Common
  import opened ForwardFrames

  /**
    The session that sends: what it was created with. A connected session has
    none of these; the daemon sends notices, copies and the parts of a larger
    send through sessions of its own, which are `forwarded`. Parts of a larger
    send are `numbered` with its message identifier.
   */
  datatype Context = Context(completion: bool, copy: Option<Destination>, collect: bool, forwarded: bool, numbered: bool)

  /** A connected session sends for itself (session.go). */
  function Own(): Context { Context(false, None, false, false, false) }

  /** The end of a turn sends a notice (policy.go). */
  function ForNotice(traced: bool): Context { Context(true, None, traced, true, false) }

  /** A settled send is copied to a parent (trace.go). */
  function ForCopy(d: Destination): Context { Context(false, Some(d), false, true, false) }

  predicate CollectsLeg(c: Context) { c.copy.None? && (!c.forwarded || c.collect) }

  /** The part of a send that stays on this host (federation.go). */
  function LocalLeg(c: Context): Context { Context(c.completion, c.copy, CollectsLeg(c), true, true) }

  /** The part of a send that goes to another host; a copy names its one recipient (federation.go). */
  function RemoteLeg(c: Context, shape: Shape): PublicRequest {
    PublicRequest(if c.copy.Some? then Shape(MessageSend, Some(c.copy.value.session), 0, false) else shape.(verb := MessageSend),
                  c.completion, CollectsLeg(c), c.copy)
  }

  /** What another host asks for is sent by a session of the daemon's own (federation.go). */
  function Admitted(r: PublicRequest): Context { Context(r.completion, r.copy, r.trace, true, true) }

  /** Whether a send is traced at all (trace.go). */
  predicate Begins(c: Context) { c.copy.None? && !(c.forwarded && (c.numbered || !c.collect)) }

  /** Whether a send looks for traced children among its recipients, given whether it is traced itself (trace.go). */
  predicate Gathers(c: Context, traced: bool) { c.copy.None? && (traced || c.collect) }

  /**
    A send is traced where it starts, and only there: a session's own sends are,
    notices if they may be, copies never; its parts, here and on other hosts, only
    look for traced recipients on its behalf, and those of an untraced send do not.
   */
  lemma TracedWhereItStarts(c: Context, r: PublicRequest, shape: Shape, traced: bool, d: Destination)
    ensures Begins(Own()) && (Begins(ForNotice(traced)) <==> traced) && !Begins(ForCopy(d))
    ensures !Begins(LocalLeg(c)) && !Begins(Admitted(r))
    ensures forall b :: b in {Own(), ForNotice(traced), ForCopy(d)} ==>
      && (Gathers(LocalLeg(b), false) <==> Begins(b)) && (Gathers(Admitted(RemoteLeg(b, shape)), false) <==> Begins(b)) && (Gathers(b, Begins(b)) <==> Begins(b))
  {
  }

  /** What is sent for a notice or a copy is marked as such on every part of its way; what a session sends itself is not. */
  lemma PartsKeepMarks(c: Context, shape: Shape)
    ensures LocalLeg(c).completion == c.completion && LocalLeg(c).copy == c.copy
    ensures Admitted(RemoteLeg(c, shape)).completion == c.completion && Admitted(RemoteLeg(c, shape)).copy == c.copy
    ensures c.copy.Some? ==> RemoteLeg(c, shape).shape == Shape(MessageSend, Some(c.copy.value.session), 0, false)
  {
  }
}
