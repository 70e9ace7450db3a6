/**
  Copies of settled sends for the parents of traced lanes, and the daemon-wide
  budget that bounds what is kept for them.
 */
module Trace {
  import opened Common
  import opened SendContext
  import opened TracePolicy

  // ---- the projection of one settled send ----

  datatype Owner = Owner(session: nat, lifetime: nat)

  /** One settled delivery; the session is unknown when the label was never resolved. */
  datatype Row = Row(session: Option<nat>, target: nat, disposition: nat)

  datatype Copy = Copy(matched: seq<nat>, body: bool, source: bool, rows: seq<Row>)

  /**
    The matches that still count when the send is settled, in order. Each is
    looked at in turn, and the directory may change in between: `at(i)` is what
    it says when match i is looked at.
   */
  function Counted(refs: seq<Ref>, here: nat -> bool, at: nat -> Directory): seq<Ref> {
    if refs == [] then [] else
    var n := |refs| - 1;
    Counted(refs[..n], here, at) + if Eligible(at(n), here, refs[n]) then [refs[n]] else []
  }

  predicate Of(ref: Ref, p: Owner) { ref.session == Some(p.session) && ref.lifetime == Some(p.lifetime) }

  /** The matches of one parent, in order. */
  function OfParent(refs: seq<Ref>, p: Owner): seq<Ref> {
    if refs == [] then [] else
    OfParent(refs[..|refs| - 1], p) + if Of(refs[|refs| - 1], p) then [refs[|refs| - 1]] else []
  }

  predicate HasParent(refs: seq<Ref>, p: Owner) { exists i :: 0 <= i < |refs| && Of(refs[i], p) }

  predicate IsChild(refs: seq<Ref>, c: nat) { exists i :: 0 <= i < |refs| && refs[i].child == c }

  predicate WantsBody(refs: seq<Ref>) { exists i :: 0 <= i < |refs| && refs[i].mode.Content? }

  /** The parent sent it, or was its only recipient. */
  predicate KnowsAlready(from: nat, rows: seq<Row>, p: Owner) { p.session == from || (|rows| == 1 && rows[0].session == Some(p.session)) }

  /** An unresolved row is filled in by the first match that was addressed by its label. */
  function Resolved(row: Row, refs: seq<Ref>): Row
    decreases |refs|
  {
    if row.session.Some? || refs == [] then row
    else if refs[0].target == Some(row.target) then row.(session := Some(refs[0].child))
    else Resolved(row, refs[1..])
  }

  predicate Labelled(row: Row, ref: Ref) { ref.target == Some(row.target) }

  /** The first match with the row's label, or their number if there is none. */
  ghost predicate FirstLabelled(row: Row, refs: seq<Ref>, i: nat) {
    && i <= |refs| && (i < |refs| ==> Labelled(row, refs[i]))
    && forall k :: 0 <= k < i ==> !Labelled(row, refs[k])
  }

  /**
    A row keeps its label and its disposition, and the session it names, if any.
    An unresolved row gets the child of the first match with its label, and stays
    unresolved without one.
   */
  lemma {:induction false} ResolvedByLabel(row: Row, refs: seq<Ref>, i: nat)
    requires FirstLabelled(row, refs, i)
    ensures Resolved(row, refs).target == row.target && Resolved(row, refs).disposition == row.disposition
    ensures Resolved(row, refs).session ==
      if row.session.Some? then row.session else if i < |refs| then Some(refs[i].child) else None
    decreases |refs|
  {
    if refs != [] && i > 0 {
      assert forall k :: 0 <= k < i - 1 ==> refs[1..][k] == refs[k + 1];
      ResolvedByLabel(row, refs[1..], i - 1);
    }
  }

  predicate Shows(row: Row, refs: seq<Ref>, source: bool) {
    source || (Resolved(row, refs).session.Some? && IsChild(refs, Resolved(row, refs).session.value))
  }

  /** The rows a parent sees, in order. */
  function Shown(rows: seq<Row>, refs: seq<Ref>, source: bool): seq<Row> {
    if rows == [] then [] else
    var last := rows[|rows| - 1];
    Shown(rows[..|rows| - 1], refs, source) + if Shows(last, refs, source) then [Resolved(last, refs)] else []
  }

  predicate Ascending(s: seq<nat>) { forall i, j :: 0 <= i < j < |s| ==> s[i] < s[j] }

  /** The copy a parent gets, stated without saying how it is built. */
  ghost predicate IsCopy(c: Copy, refs: seq<Ref>, from: nat, rows: seq<Row>) {
    && Ascending(c.matched) && (forall x :: x in c.matched <==> IsChild(refs, x))
    && (c.body <==> WantsBody(refs)) && (c.source <==> IsChild(refs, from))
    && c.rows == Shown(rows, refs, c.source)
  }

  /** When the sender is one of its children a parent sees every row. */
  lemma {:induction false} SourceSeesAll(rows: seq<Row>, refs: seq<Ref>)
    ensures |Shown(rows, refs, true)| == |rows|
    ensures forall i :: 0 <= i < |rows| ==> Shown(rows, refs, true)[i] == Resolved(rows[i], refs)
  {
    if rows != [] {
      SourceSeesAll(rows[..|rows| - 1], refs);
    }
  }

  /** Otherwise it sees exactly the rows of its own matched children. */
  lemma {:induction false} OthersSeeTheirOwn(rows: seq<Row>, refs: seq<Ref>, row: Row)
    ensures row in Shown(rows, refs, false) <==>
      row.session.Some? && IsChild(refs, row.session.value) && exists i :: 0 <= i < |rows| && Resolved(rows[i], refs) == row
  {
    if rows != [] {
      var init, last := rows[..|rows| - 1], rows[|rows| - 1];
      OthersSeeTheirOwn(init, refs, row);
      assert forall i :: 0 <= i < |init| ==> init[i] == rows[i];
      if exists i :: 0 <= i < |rows| && Resolved(rows[i], refs) == row {
        var i :| 0 <= i < |rows| && Resolved(rows[i], refs) == row;
        assert i < |init| ==> Resolved(init[i], refs) == row;
      }
    }
  }

  lemma OfParentMore(refs: seq<Ref>, ref: Ref, p: Owner)
    ensures OfParent(refs + [ref], p) == OfParent(refs, p) + if Of(ref, p) then [ref] else []
    ensures HasParent(refs + [ref], p) <==> HasParent(refs, p) || Of(ref, p)
  {
    var more := refs + [ref];
    assert more[..|more| - 1] == refs && more[|refs|] == ref;
    assert forall i :: 0 <= i < |refs| ==> more[i] == refs[i];
  }

  lemma {:induction false} OfParentHas(refs: seq<Ref>, p: Owner)
    ensures OfParent(refs, p) != [] <==> HasParent(refs, p)
  {
    if refs != [] {
      OfParentHas(refs[..|refs| - 1], p);
      OfParentMore(refs[..|refs| - 1], refs[|refs| - 1], p);
      assert refs[..|refs| - 1] + [refs[|refs| - 1]] == refs;
    }
  }

  lemma CountedMore(refs: seq<Ref>, here: nat -> bool, at: nat -> Directory, i: nat)
    requires i < |refs|
    ensures Counted(refs[..i + 1], here, at) == Counted(refs[..i], here, at) + if Eligible(at(i), here, refs[i]) then [refs[i]] else []
    ensures Eligible(at(i), here, refs[i]) ==> refs[i].session.Some? && refs[i].lifetime.Some?
  {
    assert refs[..i + 1][..i] == refs[..i];
  }

  /** Put x in its place in an ascending sequence. */
  function Inserted(s: seq<nat>, x: nat): seq<nat> {
    if s == [] || x < s[0] then [x] + s else if x == s[0] then s else [s[0]] + Inserted(s[1..], x)
  }

  lemma {:induction false} InsertedMembers(s: seq<nat>, x: nat)
    ensures forall y :: y in Inserted(s, x) <==> y in s || y == x
  {
    if s != [] && x > s[0] {
      InsertedMembers(s[1..], x);
      assert s == [s[0]] + s[1..];
    }
  }

  lemma {:induction false} InsertedAscends(s: seq<nat>, x: nat)
    requires Ascending(s)
    ensures Ascending(Inserted(s, x))
  {
    if s != [] && x > s[0] {
      var t := Inserted(s[1..], x);
      InsertedAscends(s[1..], x);
      InsertedMembers(s[1..], x);
      forall j | 0 <= j < |t| ensures s[0] < t[j] {
        assert t[j] in t;
      }
    }
  }

  /** The matches that count are in these groups, by parent. */
  ghost predicate Grouped(byParent: map<Owner, seq<Ref>>, refs: seq<Ref>) {
    && (forall p :: p in byParent <==> HasParent(refs, p))
    && (forall p :: p in byParent ==> byParent[p] == OfParent(refs, p))
  }

  lemma GroupedMore(byParent: map<Owner, seq<Ref>>, refs: seq<Ref>, ref: Ref, p: Owner)
    requires Grouped(byParent, refs) && Of(ref, p)
    ensures Grouped(byParent[p := (if p in byParent then byParent[p] else []) + [ref]], refs + [ref])
  {
    hide HasParent, OfParent;
    forall q
      ensures OfParent(refs + [ref], q) == OfParent(refs, q) + (if q == p then [ref] else [])
      ensures HasParent(refs + [ref], q) <==> HasParent(refs, q) || q == p
      ensures OfParent(refs, q) != [] <==> HasParent(refs, q)
    {
      OfParentMore(refs, ref, q);
      OfParentHas(refs, q);
    }
  }

  lemma NoGroups()
    ensures Grouped(map[], [])
  {
  }

  /** Group by parent the matches that still count. */
  method Group(refs: seq<Ref>, here: nat -> bool, at: nat -> Directory) returns (byParent: map<Owner, seq<Ref>>)
    ensures Grouped(byParent, Counted(refs, here, at))
  {
    hide Grouped, Counted, Eligible;
    byParent := map[];
    NoGroups();
    var i := 0;
    assert Counted([], here, at) == [] by { NoneCounted(here, at); }
    while i < |refs|
      invariant 0 <= i <= |refs|
      invariant Grouped(byParent, Counted(refs[..i], here, at))
    {
      var ref := refs[i];
      CountedMore(refs, here, at, i);
      if Eligible(at(i), here, ref) {
        var p := Owner(ref.session.value, ref.lifetime.value);
        GroupedMore(byParent, Counted(refs[..i], here, at), ref, p);
        byParent := byParent[p := (if p in byParent then byParent[p] else []) + [ref]];
      } else {
        assert Counted(refs[..i], here, at) + [] == Counted(refs[..i], here, at);
      }
      i := i + 1;
    }
    assert refs[..i] == refs;
  }

  lemma NoneCounted(here: nat -> bool, at: nat -> Directory)
    ensures Counted([], here, at) == []
  {
  }

  /** One parent's copy. */
  method Project(refs: seq<Ref>, from: nat, rows: seq<Row>) returns (c: Copy)
    ensures IsCopy(c, refs, from, rows)
  {
    var matched: seq<nat>, source, body := [], false, false;
    var i := 0;
    while i < |refs|
      invariant 0 <= i <= |refs| && Ascending(matched)
      invariant forall x :: x in matched <==> exists k :: 0 <= k < i && refs[k].child == x
      invariant source <==> exists k :: 0 <= k < i && refs[k].child == from
      invariant body <==> exists k :: 0 <= k < i && refs[k].mode.Content?
    {
      InsertedAscends(matched, refs[i].child);
      InsertedMembers(matched, refs[i].child);
      matched := Inserted(matched, refs[i].child);
      source := source || refs[i].child == from;
      body := body || refs[i].mode.Content?;
      i := i + 1;
    }
    var seen: seq<Row> := [];
    var j := 0;
    while j < |rows|
      invariant 0 <= j <= |rows| && seen == Shown(rows[..j], refs, source)
    {
      assert rows[..j + 1][..j] == rows[..j];
      if Shows(rows[j], refs, source) {
        seen := seen + [Resolved(rows[j], refs)];
      }
      j := j + 1;
    }
    assert rows[..j] == rows;
    c := Copy(matched, body, source, seen);
  }

  /** There is only one such copy. */
  lemma OneCopy(c: Copy, d: Copy, refs: seq<Ref>, from: nat, rows: seq<Row>)
    requires IsCopy(c, refs, from, rows) && IsCopy(d, refs, from, rows)
    ensures c == d
  {
    SameAscending(c.matched, d.matched);
  }

  lemma FirstIsIn(s: seq<nat>)
    requires s != []
    ensures s[0] in s
  {
  }

  lemma {:induction false} SameAscending(s: seq<nat>, t: seq<nat>)
    requires Ascending(s) && Ascending(t) && forall x :: x in s <==> x in t
    ensures s == t
    decreases |s|
  {
    if s == [] {
      if t != [] {
        FirstIsIn(t);
      }
    } else {
      assert s[0] in s && s[0] in t;
      assert t[0] in t && t[0] in s;
      forall x ensures x in s[1..] <==> x in t[1..] {
        assert x in s <==> x == s[0] || x in s[1..];
        assert x in t <==> x == t[0] || x in t[1..];
      }
      SameAscending(s[1..], t[1..]);
    }
  }

  /**
    The settlement of a traced send: each parent of a match that still counts
    gets exactly one copy of what concerns it, unless it sent the message or was
    its only recipient, or its copy is too long; nobody else gets any.
   */
  method Settle(refs: seq<Ref>, here: nat -> bool, at: nat -> Directory, from: nat, rows: seq<Row>, fits: Copy -> bool)
    returns (copies: map<Owner, Copy>)
    ensures var counted := Counted(refs, here, at);
      && (forall p :: p in copies ==>
            && HasParent(counted, p) && p.session != from && !(|rows| == 1 && rows[0].session == Some(p.session))
            && IsCopy(copies[p], OfParent(counted, p), from, rows) && fits(copies[p]))
      && (forall p :: HasParent(counted, p) && p.session != from && !(|rows| == 1 && rows[0].session == Some(p.session)) && p !in copies ==>
            exists c :: IsCopy(c, OfParent(counted, p), from, rows) && !fits(c))
  {
    var byParent := Group(refs, here, at);
    ghost var counted := Counted(refs, here, at);
    copies := map[];
    hide HasParent, IsCopy, OfParent, Counted;
    var left := byParent.Keys;
    while left != {}
      invariant left <= byParent.Keys
      invariant forall p :: p in copies ==>
        && p in byParent && p !in left && !KnowsAlready(from, rows, p) && IsCopy(copies[p], OfParent(counted, p), from, rows) && fits(copies[p])
      invariant forall p :: p in byParent && p !in left && !KnowsAlready(from, rows, p) && p !in copies ==>
        exists c :: IsCopy(c, OfParent(counted, p), from, rows) && !fits(c)
      decreases |left|
    {
      var p :| p in left;
      left := left - {p};
      if !KnowsAlready(from, rows, p) {
        var c := Project(byParent[p], from, rows);
        if fits(c) {
          copies := copies[p := c];
        }
      }
    }
  }

  // ---- the budget ----

  const MAX_TRACE_BYTES: nat := 4 * 1024 * 1024
  const MAX_TRACE_WORK: nat := 256
  const MAX_RECIPIENTS: nat := 256
  const MAX_REF_BYTES: nat := 16384
  const MAX_TARGET_BYTES: nat := 65536

  ghost function Total(m: map<nat, nat>): nat
    decreases |m|
  {
    if m == map[] then 0 else
    var k :| k in m;
    Smaller(m, k);
    m[k] + Total(m - {k})
  }

  lemma Smaller(m: map<nat, nat>, k: nat)
    requires k in m
    ensures |m - {k}| == |m| - 1
  {
    assert (m - {k}).Keys == m.Keys - {k};
    assert |m.Keys| == |m| && |(m - {k}).Keys| == |m - {k}|;
  }

  /** The sum does not depend on the order in which it is taken. */
  lemma {:induction false} TotalWithout(m: map<nat, nat>, k: nat)
    requires k in m
    ensures Total(m) == m[k] + Total(m - {k})
    decreases |m|
  {
    var j :| j in m && Total(m) == m[j] + Total(m - {j});
    if j != k {
      Smaller(m, j);
      Smaller(m, k);
      TotalWithout(m - {j}, k);
      TotalWithout(m - {k}, j);
      assert m - {j} - {k} == m - {k} - {j};
    }
  }

  lemma TotalWith(m: map<nat, nat>, k: nat, n: nat)
    requires k !in m
    ensures Total(m[k := n]) == Total(m) + n && |m[k := n]| == |m| + 1
  {
    TotalWithout(m[k := n], k);
    assert m[k := n] - {k} == m;
    Smaller(m[k := n], k);
  }

  lemma TotalGrown(m: map<nat, nat>, k: nat, n: nat)
    requires k in m
    ensures Total(m[k := m[k] + n]) == Total(m) + n && |m[k := m[k] + n]| == |m|
  {
    var u := m[k := m[k] + n];
    TotalWithout(u, k);
    TotalWithout(m, k);
    assert u - {k} == m - {k};
    Smaller(u, k);
    Smaller(m, k);
  }

  /** No child is matched twice. */
  predicate DistinctChildren(refs: seq<Ref>) { forall i, j :: 0 <= i < j < |refs| ==> refs[i].child != refs[j].child }

  /** A match is taken once per child, and only within the bounds on matches and bytes. */
  predicate TakesMatch(list: seq<Ref>, ref: Ref, size: nat, bytes: nat) {
    && !(exists i :: 0 <= i < |list| && list[i].child == ref.child) && |list| < MAX_RECIPIENTS
    && size <= MAX_REF_BYTES && bytes + size <= MAX_TRACE_BYTES
  }

  lemma NobodyTwice()
    ensures DistinctChildren([])
  {
  }

  lemma DistinctMore(refs: seq<Ref>, ref: Ref)
    requires DistinctChildren(refs) && !exists i :: 0 <= i < |refs| && refs[i].child == ref.child
    ensures DistinctChildren(refs + [ref])
  {
  }

  /**
    The daemon's counters, with the reservations they account for: traced sends
    of a session by request, the session's eligibility list for a remote caller,
    and copies on their way (or anything else reserved elsewhere). What the
    session was created with says which of these it may have.
   */
  class Budget {
    const context: Context
    var closing: bool
    var bytes: nat
    var count: nat
    var dropped: nat

    var requests: map<nat, nat>
    var refs: map<nat, seq<Ref>>
    var targets: seq<Ref>
    var targetsBytes: nat
    ghost var others: map<nat, nat>

    /** The counters are the sums of the live reservations, within their limits. */
    ghost predicate Valid()
      reads this
    {
      && bytes == Total(requests) + targetsBytes + Total(others) && bytes <= MAX_TRACE_BYTES
      && count == |requests| + |others| + (if targetsBytes == 0 then 0 else 1) && count <= MAX_TRACE_WORK
      && refs.Keys == requests.Keys && targetsBytes <= MAX_TARGET_BYTES
      && (forall id :: id in refs ==> DistinctChildren(refs[id]) && |refs[id]| <= MAX_RECIPIENTS)
      && DistinctChildren(targets) && |targets| <= MAX_RECIPIENTS
      && (requests != map[] ==> Begins(context)) && (targets != [] ==> Gathers(context, false))
    }

    /** A session that sends a copy traces nothing and matches nobody, whatever it does. */
    lemma CopyTracesNothing()
      requires Valid() && context.copy.Some?
      ensures requests == map[] && refs == map[] && targets == []
    {
      assert refs.Keys == requests.Keys;
    }

    constructor (context: Context)
      ensures Valid() && bytes == 0 && count == 0 && requests == map[] && targets == [] && others == map[] && this.context == context
    {
      this.context := context;
      closing, bytes, count, dropped := false, 0, 0, 0;
      requests, refs, targets, targetsBytes, others := map[], map[], [], 0, map[];
      new;
      assert Total(requests) == 0 && Total(others) == 0;
    }

    /** The daemon-wide counters alone. */
    method Reserve(size: nat) returns (ok: bool)
      requires bytes <= MAX_TRACE_BYTES && count <= MAX_TRACE_WORK
      modifies this`bytes, this`count, this`dropped
      ensures ok <==> !closing && old(bytes) + size <= MAX_TRACE_BYTES && old(count) < MAX_TRACE_WORK
      ensures bytes == old(bytes) + (if ok then size else 0) && count == old(count) + (if ok then 1 else 0)
      ensures dropped == old(dropped) + (if ok then 0 else 1)
    {
      if closing || size > MAX_TRACE_BYTES - bytes || count >= MAX_TRACE_WORK {
        dropped := dropped + 1;
        return false;
      }
      count := count + 1;
      bytes := bytes + size;
      return true;
    }

    /** A traced send begins, unless it is made for a copy or is a part of another send. */
    method Begin(id: nat, size: nat) returns (ok: bool)
      requires Valid() && id !in requests
      modifies this
      ensures Valid() && (ok <==> Begins(context) && !closing && old(bytes) + size <= MAX_TRACE_BYTES && old(count) < MAX_TRACE_WORK)
      ensures closing == old(closing)
      ensures ok ==> requests == old(requests)[id := size] && refs == old(refs)[id := []]
      ensures !ok ==> requests == old(requests) && refs == old(refs) && bytes == old(bytes) && count == old(count)
      ensures targets == old(targets) && others == old(others) && targetsBytes == old(targetsBytes)
    {
      hide Total, DistinctChildren;
      if context.copy.Some? || (context.forwarded && (context.numbered || !context.collect)) {
        return false;
      }
      NobodyTwice();
      TotalWith(requests, id, size);
      ok := Reserve(size);
      if ok {
        requests := requests[id := size];
        refs := refs[id := []];
      }
    }

    method Matched(list: seq<Ref>, child: nat) returns (found: bool)
      ensures found <==> exists i :: 0 <= i < |list| && list[i].child == child
    {
      var i := 0;
      while i < |list|
        invariant 0 <= i <= |list| && forall k :: 0 <= k < i ==> list[k].child != child
      {
        if list[i].child == child {
          return true;
        }
        i := i + 1;
      }
      return false;
    }

    /** One more match for a traced send of this session: kept once per child, within every bound. */
    method AddRef(id: nat, ref: Ref, size: nat) returns (added: bool)
      requires Valid() && id in requests && size > 0
      modifies `requests, `refs, `bytes, `dropped
      ensures Valid() && requests.Keys == old(requests).Keys && targets == old(targets) && others == old(others)
      ensures refs == if added then old(refs)[id := old(refs)[id] + [ref]] else old(refs)
      ensures added <==> TakesMatch(old(refs)[id], ref, size, old(bytes))
      ensures added ==> requests == old(requests)[id := old(requests)[id] + size] && bytes == old(bytes) + size
      ensures !added ==> requests == old(requests) && bytes == old(bytes)
      ensures count == old(count) && targetsBytes == old(targetsBytes)
    {
      hide Total, DistinctChildren, Begins, Gathers;
      var known := Matched(refs[id], ref.child);
      if known {
        return false;
      }
      if |refs[id]| >= MAX_RECIPIENTS || size > MAX_REF_BYTES || size > MAX_TRACE_BYTES - bytes {
        dropped := dropped + 1;
        return false;
      }
      TotalGrown(requests, id, size);
      DistinctMore(refs[id], ref);
      bytes := bytes + size;
      requests := requests[id := requests[id] + size];
      refs := refs[id := refs[id] + [ref]];
      return true;
    }

    /** One more match on behalf of a remote sender: the first reserves, later ones only add bytes. */
    method AddTarget(ref: Ref, size: nat) returns (added: bool)
      requires Valid() && size > 0 && Gathers(context, false)
      modifies this
      ensures Valid() && requests == old(requests) && refs == old(refs) && others == old(others)
      ensures closing == old(closing) && targets == if added then old(targets) + [ref] else old(targets)
      ensures added <==>
        && TakesMatch(old(targets), ref, size, old(bytes)) && old(targetsBytes) + size <= MAX_TARGET_BYTES
        && (old(targetsBytes) == 0 ==> !closing && old(count) < MAX_TRACE_WORK)
      ensures targetsBytes == old(targetsBytes) + (if added then size else 0) && (!added ==> bytes == old(bytes) && count == old(count))
    {
      hide Total, DistinctChildren;
      var known := Matched(targets, ref.child);
      if known {
        return false;
      }
      if |targets| >= MAX_RECIPIENTS || size > MAX_REF_BYTES || targetsBytes + size > MAX_TARGET_BYTES {
        dropped := dropped + 1;
        return false;
      }
      if targetsBytes == 0 {
        var ok := Reserve(size);
        if !ok {
          return false;
        }
      } else {
        if size > MAX_TRACE_BYTES - bytes {
          dropped := dropped + 1;
          return false;
        }
        bytes := bytes + size;
      }
      DistinctMore(targets, ref);
      targetsBytes := targetsBytes + size;
      targets := targets + [ref];
      return true;
    }

    /**
      A recipient is looked at: if it is a traced lane it is matched, for the
      traced send if there is one and else for the caller that collects. `size`
      is that of the encoded match.
     */
    method TraceTarget(id: nat, d: Directory, item: nat, target: nat, size: nat) returns (added: bool)
      requires Valid() && size > 0
      modifies this
      ensures Valid() && requests.Keys == old(requests).Keys && others == old(others)
      ensures added ==> Gathers(context, id in old(requests)) && Snapshot(d, item).Some?
      ensures var found := Snapshot(d, item); added ==>
        if id in old(requests) then refs == old(refs)[id := old(refs)[id] + [found.value.(target := Some(target))]] && targets == old(targets)
        else targets == old(targets) + [found.value.(target := Some(target))] && refs == old(refs)
      ensures !added ==> refs == old(refs) && targets == old(targets) && bytes == old(bytes) && requests == old(requests) && targetsBytes == old(targetsBytes)
    {
      added := false;
      if context.copy.Some? || (id !in requests && !context.collect) {
        return;
      }
      var found := Snapshot(d, item);
      if found.None? {
        return;
      }
      var ref := found.value.(target := Some(target));
      if id in requests {
        added := AddRef(id, ref, size);
      } else {
        added := AddTarget(ref, size);
      }
    }

    method ReleaseTargets()
      requires Valid()
      modifies this`bytes, this`count, this`targetsBytes
      ensures Valid() && targetsBytes == 0 && bytes == old(bytes) - old(targetsBytes)
    {
      if targetsBytes != 0 {
        count := count - 1;
        bytes := bytes - targetsBytes;
        targetsBytes := 0;
      }
    }

    /** A traced send is settled: exactly what it held is given back. */
    method Finish(id: nat)
      requires Valid() && id in requests
      modifies this
      ensures Valid() && requests == old(requests) - {id} && refs == old(refs) - {id} && others == old(others)
      ensures bytes == old(bytes) - old(requests)[id] && count == old(count) - 1 && targetsBytes == old(targetsBytes)
    {
      hide Total, DistinctChildren;
      TotalWithout(requests, id);
      Smaller(requests, id);
      count := count - 1;
      bytes := bytes - requests[id];
      requests := requests - {id};
      refs := refs - {id};
    }

    /** A copy is queued for delivery. */
    method Enqueue(k: nat, size: nat) returns (ok: bool)
      requires Valid() && k !in others
      modifies this
      ensures Valid() && requests == old(requests) && refs == old(refs) && targetsBytes == old(targetsBytes)
      ensures others == if ok then old(others)[k := size] else old(others)
      ensures closing == old(closing) && (ok <==> !closing && old(bytes) + size <= MAX_TRACE_BYTES && old(count) < MAX_TRACE_WORK)
    {
      hide Total, DistinctChildren;
      TotalWith(others, k, size);
      ok := Reserve(size);
      if ok {
        others := others[k := size];
      }
    }

    method Delivered(ghost k: nat, size: nat)
      requires Valid() && k in others && others[k] == size
      modifies this
      ensures Valid() && others == old(others) - {k} && requests == old(requests) && refs == old(refs)
      ensures bytes == old(bytes) - size && count == old(count) - 1 && targetsBytes == old(targetsBytes)
    {
      hide Total, DistinctChildren;
      TotalWithout(others, k);
      Smaller(others, k);
      count := count - 1;
      bytes := bytes - size;
      others := others - {k};
    }
  }
}
