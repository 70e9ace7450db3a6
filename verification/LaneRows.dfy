/**
  Lanes in the daemon's directory and their durable rows: launching, resuming,
  publishing, going offline and being forgotten, with every claim on an entry
  held by exactly one of a launch, the lane's own session or an offline close.
  Each step is one critical section of the directory or one atomic operation of
  the durable table.
 */
module LaneRows {
  import opened Common

  /** What the durable table keeps of a lane. */
  datatype Row = Row(name: nat, policy: nat)

  /** How far a launch has come; `Undoing` still has to take its row back. */
  datatype Stage = Reserved | Named | Written | Undoing | Aborted

  datatype CloseStage = Claimed | Deleted | Kept

  /** Who holds an entry. A launch that resumes knows the entry it replaced and that entry's row. */
  datatype Phase =
    | Launching(stage: Stage, previous: Option<nat>, before: Option<Row>)
    | Live
    | Leaving(deleted: bool)
    | Resting
    | Closing(forget: bool, step: CloseStage)
    | Shadowed(heir: nat)
    | Peer
    | Gone

  /** An entry; `created` says that its row carries a creation time. */
  datatype Entry = Entry(id: nat, row: Row, created: bool, claimed: bool, attached: bool, phase: Phase)

  /** `lost` counts offline closes that found their claim gone. */
  datatype Dir = Dir(objects: map<nat, Entry>, entries: map<nat, nat>, names: map<nat, nat>, rows: map<nat, Row>, lost: nat)

  predicate Here(d: Dir, x: nat) { x in d.objects && d.objects[x].id in d.entries && d.entries[d.objects[x].id] == x }

  predicate ByName(d: Dir, x: nat) { x in d.objects && d.objects[x].row.name in d.names && d.names[d.objects[x].row.name] == x }

  function Set(d: Dir, x: nat, e: Entry): Dir { d.(objects := d.objects[x := e]) }

  /** Entry x belongs to a launch that has come this far. */
  predicate At(d: Dir, x: nat, stage: Stage) { x in d.objects && d.objects[x].phase.Launching? && d.objects[x].phase.stage == stage }

  function Moved(e: Entry, stage: Stage): Entry
    requires e.phase.Launching?
  {
    e.(phase := e.phase.(stage := stage))
  }

  // ---- peers share the identifier space ----

  function PeerTakes(d: Dir, id: nat, x: nat): Dir {
    if id in d.entries && d.entries[id] in d.objects && d.objects[d.entries[id]].phase != Peer then d else
    var d1 := if id in d.entries && d.entries[id] in d.objects
              then Set(d, d.entries[id], d.objects[d.entries[id]].(phase := Gone, attached := false)) else d;
    d1.(objects := d1.objects[x := Entry(id, Row(0, 0), false, false, true, Peer)], entries := d.entries[id := x])
  }

  function PeerLeaves(d: Dir, x: nat): Dir {
    if !Here(d, x) || d.objects[x].phase != Peer then d else
    Set(d, x, d.objects[x].(phase := Gone, attached := false)).(entries := d.entries - {d.objects[x].id})
  }

  // ---- launching ----

  function ReserveFresh(d: Dir, row: Row, x: nat, refused: bool): Dir {
    if refused || row.name in d.names then d else
    Set(d, x, Entry(0, row, false, true, false, Launching(Reserved, None, None))).(names := d.names[row.name := x])
  }

  /** A lane that is neither a peer nor claimed nor connected. */
  predicate Free(d: Dir, id: nat) {
    && id in d.entries && d.entries[id] in d.objects
    && d.objects[d.entries[id]].phase != Peer && !d.objects[d.entries[id]].claimed && !d.objects[d.entries[id]].attached
  }

  function ReserveResume(d: Dir, id: nat, policy: nat, x: nat, refused: bool): Dir {
    if !Free(d, id) || refused then d else
    var p := d.entries[id];
    var before := d.objects[p];
    var item := Entry(id, before.row.(policy := policy), before.created, true, false, Launching(Named, Some(p), Some(before.row)));
    Set(Set(d, p, before.(phase := Shadowed(x))), x, item).(entries := d.entries[id := x], names := d.names[before.row.name := x])
  }

  /** The worker named its session: the identifier is taken unless someone has it already. */
  function ReserveId(d: Dir, x: nat, id: nat): Dir {
    if !At(d, x, Reserved) then d else
    var e := d.objects[x].(id := id);
    if !e.claimed || id in d.entries then Set(d, x, Moved(e, Aborted))
    else Set(d, x, Moved(e, Named)).(entries := d.entries[id := x])
  }

  function WriteRow(d: Dir, x: nat, ok: bool): Dir {
    if !At(d, x, Named) then d else
    var e := d.objects[x];
    if ok then Set(d, x, Moved(e, Written)).(rows := d.rows[e.id := e.row]) else Set(d, x, Moved(e, Aborted))
  }

  function Publish(d: Dir, x: nat, refused: bool): Dir {
    if !At(d, x, Written) then d else
    var e := d.objects[x];
    if refused || !Here(d, x) || !e.claimed || e.attached then Set(d, x, Moved(e, Undoing)) else
    var d1 := Set(d, x, e.(claimed := false, attached := true, created := true, phase := Live));
    if e.phase.previous.None? || e.phase.previous.value !in d.objects || e.phase.previous.value == x then d1
    else Set(d1, e.phase.previous.value, d.objects[e.phase.previous.value].(phase := Gone))
  }

  /** A refused publication takes its row back: a fresh row is deleted, a resumed one is restored. */
  function Undo(d: Dir, x: nat): Dir {
    if !At(d, x, Undoing) then d else
    var e := d.objects[x];
    Set(d, x, Moved(e, Aborted)).(
      rows := if e.phase.before.None? then d.rows - {e.id} else d.rows[e.id := e.phase.before.value])
  }

  /** The launch is given up: its entry goes, and a replaced one returns. */
  function Release(d: Dir, x: nat): Dir {
    if !(At(d, x, Reserved) || At(d, x, Named) || At(d, x, Aborted)) || !d.objects[x].claimed then d else
    var e := d.objects[x];
    var gone := e.(claimed := false, phase := Gone);
    if e.phase.previous.Some? && e.phase.previous.value in d.objects && e.phase.previous.value != x && e.created then
      var p := e.phase.previous.value;
      Set(Set(d, x, gone), p, d.objects[p].(phase := Resting)).(
        entries := d.entries[e.id := p], names := d.names[e.row.name := p])
    else
      Set(d, x, gone).(names := if ByName(d, x) then d.names - {e.row.name} else d.names,
                       entries := if Here(d, x) then d.entries - {e.id} else d.entries)
  }

  // ---- the end of a connected lane ----

  function AdmitClose(d: Dir, x: nat): Dir {
    if x !in d.objects || d.objects[x].phase != Live then d else Set(d, x, d.objects[x].(claimed := true))
  }

  function Detach(d: Dir, x: nat): Dir {
    if x !in d.objects || d.objects[x].phase != Live then d else
    Set(d, x, d.objects[x].(attached := false, claimed := true, phase := Leaving(false)))
  }

  /** A lane closed with forget deletes its row before it leaves the directory. */
  function LeaveDelete(d: Dir, x: nat): Dir {
    if x !in d.objects || d.objects[x].phase != Leaving(false) then d else
    Set(d, x, d.objects[x].(phase := Leaving(true))).(rows := d.rows - {d.objects[x].id})
  }

  function Offline(d: Dir, x: nat): Dir {
    if x !in d.objects || !d.objects[x].phase.Leaving? then d else
    var e := d.objects[x];
    if !e.phase.deleted then Set(d, x, e.(claimed := false, phase := Resting)) else
    Set(d, x, e.(claimed := false, phase := Gone)).(
      entries := if Here(d, x) then d.entries - {e.id} else d.entries,
      names := if Here(d, x) then d.names - {e.row.name} else d.names)
  }

  // ---- closing a lane that is offline ----

  function ClaimClose(d: Dir, id: nat, forget: bool): Dir {
    if !Free(d, id) || !d.objects[d.entries[id]].created then d else
    Set(d, d.entries[id], d.objects[d.entries[id]].(claimed := true, phase := Closing(forget, Claimed)))
  }

  function CloseDelete(d: Dir, x: nat, ok: bool): Dir {
    if x !in d.objects || d.objects[x].phase != Closing(true, Claimed) then d
    else if !ok then Set(d, x, d.objects[x].(phase := Closing(true, Kept)))
    else Set(d, x, d.objects[x].(phase := Closing(true, Deleted))).(rows := d.rows - {d.objects[x].id})
  }

  /** The claim is given back, and the entry dropped if its row is gone. */
  function FinishClose(d: Dir, x: nat): Dir {
    if x !in d.objects || !d.objects[x].phase.Closing? || d.objects[x].phase == Closing(true, Claimed) then d else
    var e := d.objects[x];
    if !(Here(d, x) && !e.attached && e.claimed) then Set(d, x, e.(phase := Gone)).(lost := d.lost + 1)
    else if e.phase.step != Deleted then Set(d, x, e.(claimed := false, phase := Resting))
    else Set(d, x, e.(claimed := false, phase := Gone)).(
      entries := d.entries - {e.id}, names := if ByName(d, x) then d.names - {e.row.name} else d.names)
  }

  // ---- what every step keeps ----

  predicate Stored(stage: Stage) { stage == Written || stage == Undoing }

  /** All that the invariant asks of one entry: itself, whether the indices lead to it, and the row they lead to. */
  datatype Look = Look(e: Entry, here: bool, named: bool, row: Option<Row>)

  function RowAt(d: Dir, i: nat): Option<Row> { if i in d.rows then Some(d.rows[i]) else None }

  function LookAt(d: Dir, x: nat): Look
    requires x in d.objects
  {
    Look(d.objects[x], Here(d, x), ByName(d, x), if Here(d, x) then RowAt(d, d.objects[x].id) else None)
  }

  predicate Indexed(k: Look) { k.here && k.named && k.e.created && !k.e.attached }

  ghost predicate Fits(k: Look) {
    match k.e.phase
    case Launching(stage, previous, before) =>
      && k.e.claimed && !k.e.attached && k.named && previous.Some? == before.Some?
      && (if before.None? then
            && !k.e.created && (stage == Reserved ==> !k.here) && (stage == Named || Stored(stage) ==> k.here)
            && k.row == (if Stored(stage) then Some(k.e.row) else None)
          else
            && k.e.created && k.here && stage != Reserved && before.value.name == k.e.row.name
            && k.row == Some(if Stored(stage) then k.e.row else before.value))
    case Live => k.e.attached && k.here && k.named && k.e.created && k.row == Some(k.e.row)
    case Leaving(deleted) => k.e.claimed && Indexed(k) && k.row == (if deleted then None else Some(k.e.row))
    case Resting => !k.e.claimed && Indexed(k) && k.row == Some(k.e.row)
    case Closing(_, step) => k.e.claimed && Indexed(k) && k.row == (if step == Deleted then None else Some(k.e.row))
    case Shadowed(_) => !k.here && !k.named
    case Peer => k.here && !k.e.claimed && !k.named && k.row.None?
    case Gone => !k.here && !k.named
  }

  /** The entry this one is tied to: the one it replaces, or the one that replaces it. */
  function Partner(e: Entry): Option<nat> {
    match e.phase
    case Launching(_, previous, _) => previous
    case Shadowed(heir) => Some(heir)
    case _ => None
  }

  ghost predicate Tied(d: Dir, x: nat, e: Entry) {
    match e.phase
    case Launching(_, previous, before) =>
      previous.Some? && before.Some? ==>
        previous.value in d.objects && d.objects[previous.value] == Entry(e.id, before.value, true, false, false, Shadowed(x))
    case Shadowed(heir) => heir in d.objects && d.objects[heir].phase.Launching? && d.objects[heir].phase.previous == Some(x)
    case _ => true
  }

  ghost predicate ObjectOk(d: Dir, x: nat)
    requires x in d.objects
  {
    Fits(LookAt(d, x)) && Tied(d, x, d.objects[x])
  }

  ghost predicate IndexOk(d: Dir) {
    && (forall id :: id in d.entries ==> d.entries[id] in d.objects && d.objects[d.entries[id]].id == id)
    && (forall n :: n in d.names ==> d.names[n] in d.objects && d.objects[d.names[n]].row.name == n)
    && (forall id :: id in d.rows ==> id in d.entries)
  }

  ghost predicate Ok(d: Dir) { IndexOk(d) && (forall x :: x in d.objects ==> ObjectOk(d, x)) && d.lost == 0 }

  // ---- a step touches few entries ----

  function Slot(m: map<nat, nat>, i: nat): Option<nat> { if i in m then Some(m[i]) else None }

  predicate Ours(slot: Option<nat>, touched: set<nat>) { slot.None? || slot.value in touched }

  /** Only touched entries change, and only index slots and rows that lead to touched entries. */
  ghost predicate Frame(d: Dir, u: Dir, touched: set<nat>) {
    && (forall y :: y in d.objects ==> y in u.objects && (y !in touched ==> u.objects[y] == d.objects[y]))
    && (forall y :: y in u.objects && y !in touched ==> y in d.objects)
    && (forall i: nat :: Slot(u.entries, i) == Slot(d.entries, i) || (Ours(Slot(d.entries, i), touched) && Ours(Slot(u.entries, i), touched)))
    && (forall i: nat :: Slot(u.names, i) == Slot(d.names, i) || (Ours(Slot(d.names, i), touched) && Ours(Slot(u.names, i), touched)))
    && (forall i: nat :: RowAt(u, i) == RowAt(d, i) || (Ours(Slot(d.entries, i), touched) && Ours(Slot(u.entries, i), touched)))
  }

  /** The partner of a touched entry is touched too. */
  ghost predicate Complete(d: Dir, touched: set<nat>) {
    forall y :: y in touched && y in d.objects ==> Ours(Partner(d.objects[y]), touched)
  }

  lemma FrameLook(d: Dir, u: Dir, touched: set<nat>, y: nat)
    requires Frame(d, u, touched) && y in u.objects && y !in touched
    ensures y in d.objects && LookAt(u, y) == LookAt(d, y)
  {
    var e := u.objects[y];
    assert Slot(u.entries, e.id) == Slot(d.entries, e.id) || (Ours(Slot(d.entries, e.id), touched) && Ours(Slot(u.entries, e.id), touched));
    assert Slot(u.names, e.row.name) == Slot(d.names, e.row.name) || (Ours(Slot(d.names, e.row.name), touched) && Ours(Slot(u.names, e.row.name), touched));
    assert RowAt(u, e.id) == RowAt(d, e.id) || (Ours(Slot(d.entries, e.id), touched) && Ours(Slot(u.entries, e.id), touched));
  }

  /** A partner's partner is the entry itself, so untouched entries keep theirs. */
  lemma FrameTied(d: Dir, u: Dir, touched: set<nat>, y: nat)
    requires Frame(d, u, touched) && Complete(d, touched) && y in u.objects && y in d.objects && y !in touched && ObjectOk(d, y)
    ensures Tied(u, y, u.objects[y])
  {
    var z := Partner(d.objects[y]);
    assert z.Some? && z.value in d.objects ==> z.value !in touched || Ours(Partner(d.objects[z.value]), touched);
  }

  /** To keep the invariant it is enough to look at what was touched. */
  lemma TouchedOk(d: Dir, u: Dir, touched: set<nat>)
    requires Ok(d) && Frame(d, u, touched) && Complete(d, touched) && IndexOk(u) && u.lost == d.lost
    requires forall y :: y in u.objects && y in touched ==> ObjectOk(u, y)
    ensures Ok(u)
  {
    forall y | y in u.objects ensures ObjectOk(u, y) {
      if y !in touched {
        assert y in d.objects && ObjectOk(d, y);
        FrameLook(d, u, touched, y);
        FrameTied(d, u, touched, y);
      }
    }
    hide IndexOk, ObjectOk, Frame, Complete;
  }

  lemma OneOk(d: Dir, u: Dir, x: nat)
    requires Ok(d) && Frame(d, u, {x}) && (x in d.objects ==> Partner(d.objects[x]).None?) && IndexOk(u) && u.lost == d.lost
    requires x in u.objects && ObjectOk(u, x)
    ensures Ok(u)
  {
    hide Ok, Frame, IndexOk, ObjectOk, Partner;
    TouchedOk(d, u, {x});
  }

  lemma TwoOk(d: Dir, u: Dir, x: nat, p: nat)
    requires Ok(d) && Frame(d, u, {x, p}) && IndexOk(u) && u.lost == d.lost
    requires (x in d.objects ==> Ours(Partner(d.objects[x]), {x, p})) && (p in d.objects ==> Ours(Partner(d.objects[p]), {x, p}))
    requires x in u.objects && ObjectOk(u, x) && p in u.objects && ObjectOk(u, p)
    ensures Ok(u)
  {
    hide Ok, Frame, IndexOk, ObjectOk, Partner;
    TouchedOk(d, u, {x, p});
  }

  lemma ObjectFacts(d: Dir, x: nat)
    requires Ok(d) && x in d.objects
    ensures IndexOk(d) && ObjectOk(d, x)
  {
  }

  predicate OwnRow(before: map<nat, Row>, after: map<nat, Row>, id: nat) {
    after == before - {id} || (id in after && after == before[id := after[id]])
  }

  /** Entry x changes where it stands, and at most its own row with it. */
  predicate Stays(d: Dir, u: Dir, x: nat) {
    && x in d.objects && x in u.objects && u.entries == d.entries && u.names == d.names && u.lost == d.lost
    && u.objects == d.objects[x := u.objects[x]] && u.objects[x].id == d.objects[x].id && u.objects[x].row == d.objects[x].row
    && (u.rows == d.rows || (Here(d, x) && OwnRow(d.rows, u.rows, d.objects[x].id)))
  }

  function StayLook(d: Dir, u: Dir, x: nat): Look
    requires Stays(d, u, x)
  {
    Look(u.objects[x], Here(d, x), ByName(d, x), if Here(d, x) then RowAt(u, u.objects[x].id) else None)
  }

  lemma StaysFrame(d: Dir, u: Dir, x: nat)
    requires IndexOk(d) && Stays(d, u, x)
    ensures Frame(d, u, {x}) && IndexOk(u) && LookAt(u, x) == StayLook(d, u, x)
  {
  }

  lemma StaysOk(d: Dir, u: Dir, x: nat)
    requires Ok(d) && Stays(d, u, x) && Fits(StayLook(d, u, x)) && Partner(d.objects[x]).None? && Partner(u.objects[x]).None?
    ensures Ok(u)
  {
    ObjectFacts(d, x);
    hide Ok, IndexOk, Frame, Fits;
    StaysFrame(d, u, x);
    hide LookAt;
    OneOk(d, u, x);
  }

  lemma WiderFrame(d: Dir, u: Dir, x: nat, p: nat)
    requires Frame(d, u, {x})
    ensures Frame(d, u, {x, p})
  {
  }

  /** A launch moves on; the entry it replaces, if any, stays in its shadow. */
  lemma StageOk(d: Dir, u: Dir, x: nat)
    requires Ok(d) && Stays(d, u, x) && Fits(StayLook(d, u, x))
    requires d.objects[x].phase.Launching? && u.objects[x].phase.Launching?
    requires u.objects[x].phase.previous == d.objects[x].phase.previous && u.objects[x].phase.before == d.objects[x].phase.before
    ensures Ok(u)
  {
    ObjectFacts(d, x);
    var p := d.objects[x].phase.previous;
    if p.None? {
      hide Ok, IndexOk, Frame;
      StaysFrame(d, u, x);
      hide Fits, LookAt;
      OneOk(d, u, x);
    } else {
      ShadowStays(d, u, x, p.value);
      hide Ok, IndexOk, Frame, ObjectOk;
      TwoOk(d, u, x, p.value);
    }
  }

  lemma ShadowStays(d: Dir, u: Dir, x: nat, p: nat)
    requires Ok(d) && Stays(d, u, x) && Fits(StayLook(d, u, x)) && d.objects[x].phase.Launching? && u.objects[x].phase.Launching?
    requires u.objects[x].phase.previous == d.objects[x].phase.previous == Some(p) && u.objects[x].phase.before == d.objects[x].phase.before
    ensures p in d.objects && p != x && d.objects[p].phase == Shadowed(x)
    ensures Frame(d, u, {x, p}) && IndexOk(u) && ObjectOk(u, x) && ObjectOk(u, p)
  {
    ObjectFacts(d, x);
    assert p in d.objects && d.objects[p].phase == Shadowed(x);
    ObjectFacts(d, p);
    hide Ok, IndexOk, Frame, Fits;
    StaysFrame(d, u, x);
    FrameLook(d, u, {x}, p);
    WiderFrame(d, u, x, p);
  }

  /** Entry x leaves the indices; its row is gone already. */
  predicate Drops(d: Dir, u: Dir, x: nat) {
    && x in d.objects && u.objects == d.objects[x := d.objects[x].(claimed := false, phase := Gone, attached := false)]
    && u.rows == d.rows && u.lost == d.lost && (Here(d, x) ==> d.objects[x].id !in d.rows)
    && u.entries == (if Here(d, x) then d.entries - {d.objects[x].id} else d.entries)
    && u.names == (if ByName(d, x) then d.names - {d.objects[x].row.name} else d.names)
  }

  lemma DropsFrame(d: Dir, u: Dir, x: nat)
    requires IndexOk(d) && Drops(d, u, x)
    ensures Frame(d, u, {x}) && IndexOk(u) && ObjectOk(u, x)
  {
    assert LookAt(u, x) == Look(u.objects[x], false, false, None);
  }

  lemma DropsOk(d: Dir, u: Dir, x: nat)
    requires Ok(d) && Drops(d, u, x) && Partner(d.objects[x]).None?
    ensures Ok(u)
  {
    ObjectFacts(d, x);
    hide Ok, IndexOk, Frame, ObjectOk;
    DropsFrame(d, u, x);
    OneOk(d, u, x);
  }

  // ---- the steps ----

  lemma DetachOk(d: Dir, x: nat)
    requires Ok(d)
    ensures Ok(Detach(d, x)) && Ok(AdmitClose(d, x))
  {
    if x in d.objects && d.objects[x].phase == Live {
      ObjectFacts(d, x);
      hide Ok;
      StaysOk(d, Detach(d, x), x);
      StaysOk(d, AdmitClose(d, x), x);
    }
  }

  lemma LeaveDeleteOk(d: Dir, x: nat)
    requires Ok(d)
    ensures Ok(LeaveDelete(d, x))
  {
    if x in d.objects && d.objects[x].phase == Leaving(false) {
      ObjectFacts(d, x);
      hide Ok;
      StaysOk(d, LeaveDelete(d, x), x);
    }
  }

  lemma OfflineOk(d: Dir, x: nat)
    requires Ok(d)
    ensures Ok(Offline(d, x))
  {
    if x in d.objects && d.objects[x].phase.Leaving? {
      ObjectFacts(d, x);
      hide Ok;
      if d.objects[x].phase.deleted {
        DropsOk(d, Offline(d, x), x);
      } else {
        StaysOk(d, Offline(d, x), x);
      }
    }
  }

  lemma WriteRowOk(d: Dir, x: nat, ok: bool)
    requires Ok(d)
    ensures Ok(WriteRow(d, x, ok))
  {
    if At(d, x, Named) {
      ObjectFacts(d, x);
      hide Ok;
      StageOk(d, WriteRow(d, x, ok), x);
    }
  }

  lemma UndoOk(d: Dir, x: nat)
    requires Ok(d)
    ensures Ok(Undo(d, x))
  {
    if At(d, x, Undoing) {
      ObjectFacts(d, x);
      hide Ok;
      StageOk(d, Undo(d, x), x);
    }
  }

  lemma ClaimCloseOk(d: Dir, id: nat, forget: bool)
    requires Ok(d)
    ensures Ok(ClaimClose(d, id, forget))
  {
    if Free(d, id) {
      UnclaimedRests(d, id);
      ObjectFacts(d, d.entries[id]);
      hide Ok;
      StaysOk(d, ClaimClose(d, id, forget), d.entries[id]);
    }
  }

  lemma CloseDeleteOk(d: Dir, x: nat, ok: bool)
    requires Ok(d)
    ensures Ok(CloseDelete(d, x, ok))
  {
    if x in d.objects && d.objects[x].phase == Closing(true, Claimed) {
      ObjectFacts(d, x);
      hide Ok;
      StaysOk(d, CloseDelete(d, x, ok), x);
    }
  }

  /** An offline close always finds its claim where it left it. */
  lemma FinishCloseOk(d: Dir, x: nat)
    requires Ok(d)
    ensures Ok(FinishClose(d, x))
  {
    if x in d.objects && d.objects[x].phase.Closing? && d.objects[x].phase != Closing(true, Claimed) {
      ObjectFacts(d, x);
      hide Ok;
      if d.objects[x].phase.step == Deleted {
        DropsOk(d, FinishClose(d, x), x);
      } else {
        StaysOk(d, FinishClose(d, x), x);
      }
    }
  }

  /** Any lane that may be resumed, or closed offline, is resting: nobody holds a claim on it. */
  lemma UnclaimedRests(d: Dir, id: nat)
    requires Ok(d) && Free(d, id)
    ensures var p := d.entries[id]; d.objects[p].phase == Resting && Here(d, p) && ByName(d, p) && d.objects[p].created
    ensures RowAt(d, id) == Some(d.objects[d.entries[id]].row) && d.objects[d.entries[id]].id == id
  {
    ObjectFacts(d, d.entries[id]);
    assert LookAt(d, d.entries[id]).here;
  }

  lemma PeerLeavesOk(d: Dir, x: nat)
    requires Ok(d)
    ensures Ok(PeerLeaves(d, x))
  {
    if Here(d, x) && d.objects[x].phase == Peer {
      ObjectFacts(d, x);
      hide Ok;
      DropsOk(d, PeerLeaves(d, x), x);
    }
  }

  /** A new entry x takes identifier id, the name, or both. */
  predicate Arrives(d: Dir, u: Dir, x: nat, id: Option<nat>, name: Option<nat>) {
    && x !in d.objects && x in u.objects && u.objects == d.objects[x := u.objects[x]] && u.rows == d.rows && u.lost == d.lost
    && u.entries == (if id.Some? then d.entries[id.value := x] else d.entries)
    && u.names == (if name.Some? then d.names[name.value := x] else d.names)
    && (id.Some? ==> id.value !in d.entries && u.objects[x].id == id.value)
    && (name.Some? ==> name.value !in d.names && u.objects[x].row.name == name.value)
  }

  lemma ArrivesFrame(d: Dir, u: Dir, x: nat, id: Option<nat>, name: Option<nat>)
    requires Arrives(d, u, x, id, name)
    ensures Frame(d, u, {x})
  {
  }

  lemma ArrivesIndex(d: Dir, u: Dir, x: nat, id: Option<nat>, name: Option<nat>)
    requires IndexOk(d) && Arrives(d, u, x, id, name)
    ensures IndexOk(u) && LookAt(u, x) == Look(u.objects[x], id.Some?, name.Some?, None)
  {
    assert forall i :: i in d.entries ==> d.entries[i] != x;
    assert forall n :: n in d.names ==> d.names[n] != x;
  }

  lemma ArrivesOk(d: Dir, u: Dir, x: nat, id: Option<nat>, name: Option<nat>)
    requires Ok(d) && Arrives(d, u, x, id, name) && Fits(Look(u.objects[x], id.Some?, name.Some?, None)) && Partner(u.objects[x]).None?
    ensures Ok(u)
  {
    assert IndexOk(d);
    hide Ok, IndexOk, Frame;
    ArrivesFrame(d, u, x, id, name);
    ArrivesIndex(d, u, x, id, name);
    hide Fits, LookAt;
    OneOk(d, u, x);
  }

  lemma PeerTakesOk(d: Dir, id: nat, x: nat)
    requires Ok(d) && x !in d.objects
    ensures Ok(PeerTakes(d, id, x))
  {
    hide Ok, IndexOk, ObjectOk;
    if id in d.entries {
      EntryFacts(d, id);
      if d.objects[d.entries[id]].phase == Peer {
        PeerOverPeer(d, id, x);
      }
    } else {
      ArrivesOk(d, PeerTakes(d, id, x), x, Some(id), None);
    }
  }

  lemma EntryFacts(d: Dir, id: nat)
    requires Ok(d) && id in d.entries
    ensures d.entries[id] in d.objects && d.objects[d.entries[id]].id == id && Here(d, d.entries[id])
  {
  }

  lemma PeerFacts(d: Dir, y: nat)
    requires Ok(d) && y in d.objects && d.objects[y].phase == Peer
    ensures Here(d, y) && !ByName(d, y) && d.objects[y].id !in d.rows && !d.objects[y].claimed
  {
    ObjectFacts(d, y);
  }

  /** A peer takes over an identifier from another peer: the one leaves, the other arrives. */
  lemma PeerOverPeer(d: Dir, id: nat, x: nat)
    requires Ok(d) && x !in d.objects && id in d.entries && d.entries[id] in d.objects && d.objects[d.entries[id]].phase == Peer
    requires d.objects[d.entries[id]].id == id
    ensures Ok(PeerTakes(d, id, x))
  {
    hide Ok, IndexOk, ObjectOk;
    var y := d.entries[id];
    PeerFacts(d, y);
    var m := Set(d, y, d.objects[y].(phase := Gone, attached := false)).(entries := d.entries - {id});
    DropsOk(d, m, y);
    assert m.entries[id := x] == d.entries[id := x];
    ArrivesOk(m, PeerTakes(d, id, x), x, Some(id), None);
  }

  lemma ReserveFreshOk(d: Dir, row: Row, x: nat, refused: bool)
    requires Ok(d) && x !in d.objects
    ensures Ok(ReserveFresh(d, row, x, refused))
  {
    if !refused && row.name !in d.names {
      assert 0 in d.entries ==> d.entries[0] in d.objects;
      hide Ok;
      ArrivesOk(d, ReserveFresh(d, row, x, refused), x, None, Some(row.name));
    }
  }

  /** The entry of a fresh launch takes identifier id, or learns that someone has it. */
  predicate Names(d: Dir, u: Dir, x: nat, id: nat, taken: bool) {
    && x in d.objects && x in u.objects && u.objects == d.objects[x := u.objects[x]] && u.objects[x].id == id && u.objects[x].row == d.objects[x].row
    && u.names == d.names && u.rows == d.rows && u.lost == d.lost && taken == (id in d.entries) && !Here(d, x) && ByName(d, x)
    && u.entries == if taken then d.entries else d.entries[id := x]
  }

  lemma NamedFrame(d: Dir, u: Dir, x: nat, id: nat, taken: bool)
    requires Names(d, u, x, id, taken)
    ensures Frame(d, u, {x})
  {
  }

  lemma NamedIndex(d: Dir, u: Dir, x: nat, id: nat, taken: bool)
    requires IndexOk(d) && Names(d, u, x, id, taken)
    ensures IndexOk(u) && LookAt(u, x) == Look(u.objects[x], !taken, true, None)
  {
    assert forall i :: i in d.entries ==> d.entries[i] != x;
  }

  lemma ReserveIdOk(d: Dir, x: nat, id: nat)
    requires Ok(d)
    ensures Ok(ReserveId(d, x, id))
  {
    hide Ok, IndexOk, Frame, LookAt;
    if At(d, x, Reserved) {
      var u := ReserveId(d, x, id);
      ReservedFacts(d, x);
      NamedFrame(d, u, x, id, id in d.entries);
      NamedIndex(d, u, x, id, id in d.entries);
      OneOk(d, u, x);
    }
  }

  lemma ReservedFacts(d: Dir, x: nat)
    requires Ok(d) && At(d, x, Reserved)
    ensures IndexOk(d) && !Here(d, x) && ByName(d, x)
    ensures var e := d.objects[x]; e.claimed && !e.attached && !e.created && e.phase == Launching(Reserved, None, None)
  {
    ObjectFacts(d, x);
  }

  /** A launch is only refused from outside: it never finds its place or its claim gone. */
  lemma PublishOk(d: Dir, x: nat, refused: bool)
    requires Ok(d)
    ensures Ok(Publish(d, x, refused))
    ensures At(d, x, Written) && !refused ==> Publish(d, x, refused).objects[x].phase == Live
  {
    if At(d, x, Written) {
      ObjectFacts(d, x);
      var e := d.objects[x];
      if refused {
        hide Ok;
        StageOk(d, Publish(d, x, refused), x);
      } else if e.phase.previous.None? {
        hide Ok;
        StaysOk(d, Publish(d, x, refused), x);
      } else {
        ReplacedOk(d, x);
      }
    }
  }

  lemma ReplacedOk(d: Dir, x: nat)
    requires Ok(d) && At(d, x, Written) && d.objects[x].phase.previous.Some?
    ensures Ok(Publish(d, x, false)) && Publish(d, x, false).objects[x].phase == Live
  {
    var p := d.objects[x].phase.previous.value;
    ObjectFacts(d, x);
    assert p in d.objects && d.objects[p].phase == Shadowed(x);
    ObjectFacts(d, p);
    var m, u := Set(d, x, d.objects[x].(claimed := false, attached := true, created := true, phase := Live)), Publish(d, x, false);
    hide Ok, IndexOk, Frame;
    ReplacedFrame(d, m, u, x, p);
    hide Fits, LookAt;
    TwoOk(d, u, x, p);
  }

  lemma ReplacedFrame(d: Dir, m: Dir, u: Dir, x: nat, p: nat)
    requires IndexOk(d) && x != p && Stays(d, m, x) && Stays(m, u, p) && m.rows == d.rows && u.rows == d.rows
    requires ObjectOk(d, x) && ObjectOk(d, p) && d.objects[x].phase.Launching? && Stored(d.objects[x].phase.stage) && d.objects[x].phase.before.Some?
    requires d.objects[p].phase.Shadowed? && m.objects[x].phase == Live && m.objects[x].attached && m.objects[x].created && u.objects[p].phase == Gone
    ensures Frame(d, u, {x, p}) && IndexOk(u) && ObjectOk(u, x) && ObjectOk(u, p)
  {
    hide IndexOk, Frame;
    StaysFrame(d, m, x);
    StaysFrame(m, u, p);
    FrameLook(m, u, {p}, x);
    FrameLook(d, m, {x}, p);
    FramesJoin(d, m, u, x, p);
  }

  lemma FramesJoin(d: Dir, m: Dir, u: Dir, x: nat, p: nat)
    requires Frame(d, m, {x}) && Frame(m, u, {p}) && u.entries == m.entries == d.entries && u.names == m.names == d.names && u.rows == m.rows == d.rows
    ensures Frame(d, u, {x, p})
  {
  }

  /** Entry x gives its identifier and its name back to p. */
  predicate Returns(d: Dir, u: Dir, x: nat, p: nat) {
    && x in d.objects && p in d.objects && x != p && Here(d, x) && ByName(d, x) && u.rows == d.rows && u.lost == d.lost
    && u.objects == d.objects[x := d.objects[x].(claimed := false, phase := Gone)][p := d.objects[p].(phase := Resting)]
    && d.objects[p].id == d.objects[x].id && d.objects[p].row.name == d.objects[x].row.name
    && u.entries == d.entries[d.objects[x].id := p] && u.names == d.names[d.objects[x].row.name := p]
  }

  lemma ReturnsFrame(d: Dir, u: Dir, x: nat, p: nat)
    requires Returns(d, u, x, p)
    ensures Frame(d, u, {x, p})
  {
  }

  lemma ReturnsIndex(d: Dir, u: Dir, x: nat, p: nat)
    requires IndexOk(d) && Returns(d, u, x, p)
    ensures IndexOk(u) && LookAt(u, x) == Look(u.objects[x], false, false, None)
    ensures LookAt(u, p) == Look(u.objects[p], true, true, RowAt(d, d.objects[p].id))
  {
  }

  lemma ReleaseOk(d: Dir, x: nat)
    requires Ok(d)
    ensures Ok(Release(d, x))
  {
    if At(d, x, Reserved) || At(d, x, Named) || At(d, x, Aborted) {
      ObjectFacts(d, x);
      var previous := d.objects[x].phase.previous;
      if previous.None? {
        hide Ok;
        DropsOk(d, Release(d, x), x);
      } else {
        ReleaseResumed(d, x, previous.value);
      }
    }
  }

  lemma ReleaseShape(d: Dir, x: nat, p: nat)
    requires x in d.objects && ObjectOk(d, x) && (At(d, x, Named) || At(d, x, Aborted)) && d.objects[x].phase.previous == Some(p)
    ensures Returns(d, Release(d, x), x, p) && d.objects[x].phase.before.Some?
    ensures d.objects[p] == Entry(d.objects[x].id, d.objects[x].phase.before.value, true, false, false, Shadowed(x))
    ensures RowAt(d, d.objects[x].id) == d.objects[x].phase.before
  {
  }

  /** Giving up a resume puts back the entry and the row that were there before. */
  lemma ReleaseResumed(d: Dir, x: nat, p: nat)
    requires Ok(d) && (At(d, x, Reserved) || At(d, x, Named) || At(d, x, Aborted)) && d.objects[x].phase.previous == Some(p)
    ensures var u, e := Release(d, x), d.objects[x];
      && Ok(u) && e.phase.before.Some? && p in u.objects
      && u.objects[p] == Entry(e.id, e.phase.before.value, true, false, false, Resting)
      && Here(u, p) && ByName(u, p) && RowAt(u, e.id) == e.phase.before
  {
    ObjectFacts(d, x);
    ReleaseShape(d, x, p);
    var u := Release(d, x);
    hide Ok, Frame, Release, ObjectOk;
    ReturnsFrame(d, u, x, p);
    ReturnsIndex(d, u, x, p);
    hide IndexOk;
    ReturnedOk(u, x, p, d.objects[x].phase.before);
    TwoOk(d, u, x, p);
  }

  lemma ReturnedOk(u: Dir, x: nat, p: nat, before: Option<Row>)
    requires x in u.objects && p in u.objects && u.objects[x].phase == Gone && LookAt(u, x) == Look(u.objects[x], false, false, None)
    requires before.Some? && u.objects[p] == Entry(u.objects[p].id, before.value, true, false, false, Resting)
    requires LookAt(u, p) == Look(u.objects[p], true, true, before)
    ensures ObjectOk(u, x) && ObjectOk(u, p)
  {
    hide LookAt;
  }

  /** Giving up a fresh launch leaves neither an entry, nor a name, nor a row of it. */
  lemma ReleaseFresh(d: Dir, x: nat)
    requires Ok(d) && (At(d, x, Reserved) || At(d, x, Named) || At(d, x, Aborted)) && d.objects[x].phase.previous.None?
    ensures var u, e := Release(d, x), d.objects[x];
      && (forall i :: i in u.entries ==> u.entries[i] != x) && (forall n :: n in u.names ==> u.names[n] != x)
      && (Here(d, x) ==> e.id !in u.rows) && e.row.name !in u.names
  {
    ObjectFacts(d, x);
  }

  /** A new entry x takes over identifier and name of p, which stays in its shadow. */
  predicate Overtakes(d: Dir, u: Dir, x: nat, p: nat) {
    && x !in d.objects && p in d.objects && x in u.objects && Here(d, p) && ByName(d, p) && u.rows == d.rows && u.lost == d.lost
    && u.objects == d.objects[p := d.objects[p].(phase := Shadowed(x))][x := u.objects[x]]
    && u.objects[x].id == d.objects[p].id && u.objects[x].row.name == d.objects[p].row.name
    && u.entries == d.entries[d.objects[p].id := x] && u.names == d.names[d.objects[p].row.name := x]
  }

  lemma OvertakesFrame(d: Dir, u: Dir, x: nat, p: nat)
    requires Overtakes(d, u, x, p)
    ensures Frame(d, u, {x, p})
  {
  }

  lemma OvertakesIndex(d: Dir, u: Dir, x: nat, p: nat)
    requires IndexOk(d) && Overtakes(d, u, x, p)
    ensures IndexOk(u) && LookAt(u, p) == Look(u.objects[p], false, false, None)
    ensures LookAt(u, x) == Look(u.objects[x], true, true, RowAt(d, d.objects[p].id))
  {
  }

  lemma ReserveResumeOk(d: Dir, id: nat, policy: nat, x: nat, refused: bool)
    requires Ok(d) && x !in d.objects
    ensures Ok(ReserveResume(d, id, policy, x, refused))
  {
    if Free(d, id) && !refused {
      UnclaimedRests(d, id);
      ObjectFacts(d, d.entries[id]);
      var p, u := d.entries[id], ReserveResume(d, id, policy, x, refused);
      assert Overtakes(d, u, x, p);
      OvertakenOk(d, u, x, p);
    }
  }

  lemma OvertakenOk(d: Dir, u: Dir, x: nat, p: nat)
    requires Ok(d) && Overtakes(d, u, x, p) && d.objects[p].phase == Resting && RowAt(d, d.objects[p].id) == Some(d.objects[p].row)
    requires d.objects[p].created && !d.objects[p].claimed && !d.objects[p].attached
    requires u.objects[x].created && u.objects[x].claimed && !u.objects[x].attached
    requires u.objects[x].phase == Launching(Named, Some(p), Some(d.objects[p].row))
    ensures Ok(u)
  {
    hide Ok, Frame, IndexOk, LookAt;
    ObjectFacts(d, p);
    OvertakesFrame(d, u, x, p);
    OvertakesIndex(d, u, x, p);
    OvertakenFits(d, u, x, p);
    hide ObjectOk;
    TwoOk(d, u, x, p);
  }

  lemma OvertakenFits(d: Dir, u: Dir, x: nat, p: nat)
    requires p in u.objects && x in u.objects && p in d.objects && u.objects[p] == d.objects[p].(phase := Shadowed(x))
    requires LookAt(u, p) == Look(u.objects[p], false, false, None)
    requires LookAt(u, x) == Look(u.objects[x], true, true, Some(d.objects[p].row))
    requires u.objects[x].id == d.objects[p].id && u.objects[x].row.name == d.objects[p].row.name
    requires d.objects[p].created && !d.objects[p].claimed && !d.objects[p].attached
    requires u.objects[x].created && u.objects[x].claimed && !u.objects[x].attached
    requires u.objects[x].phase == Launching(Named, Some(p), Some(d.objects[p].row))
    ensures ObjectOk(u, x) && ObjectOk(u, p)
  {
    hide LookAt;
  }

  // ---- every run ----

  datatype Op =
    | PeerTakesOp(id: nat, x: nat) | PeerLeavesOp(x: nat)
    | ReserveFreshOp(row: Row, x: nat, refused: bool) | ReserveResumeOp(id: nat, policy: nat, x: nat, refused: bool)
    | ReserveIdOp(x: nat, id: nat) | WriteRowOp(x: nat, ok: bool) | PublishOp(x: nat, refused: bool) | UndoOp(x: nat) | ReleaseOp(x: nat)
    | AdmitCloseOp(x: nat) | DetachOp(x: nat) | LeaveDeleteOp(x: nat) | OfflineOp(x: nat)
    | ClaimCloseOp(id: nat, forget: bool) | CloseDeleteOp(x: nat, ok: bool) | FinishCloseOp(x: nat)

  /** New entries are new objects. */
  predicate Enabled(d: Dir, op: Op) { (op.PeerTakesOp? || op.ReserveFreshOp? || op.ReserveResumeOp?) ==> op.x !in d.objects }

  function Step(d: Dir, op: Op): Dir {
    match op
    case PeerTakesOp(id, x) => PeerTakes(d, id, x)
    case PeerLeavesOp(x) => PeerLeaves(d, x)
    case ReserveFreshOp(row, x, refused) => ReserveFresh(d, row, x, refused)
    case ReserveResumeOp(id, policy, x, refused) => ReserveResume(d, id, policy, x, refused)
    case ReserveIdOp(x, id) => ReserveId(d, x, id)
    case WriteRowOp(x, ok) => WriteRow(d, x, ok)
    case PublishOp(x, refused) => Publish(d, x, refused)
    case UndoOp(x) => Undo(d, x)
    case ReleaseOp(x) => Release(d, x)
    case AdmitCloseOp(x) => AdmitClose(d, x)
    case DetachOp(x) => Detach(d, x)
    case LeaveDeleteOp(x) => LeaveDelete(d, x)
    case OfflineOp(x) => Offline(d, x)
    case ClaimCloseOp(id, forget) => ClaimClose(d, id, forget)
    case CloseDeleteOp(x, ok) => CloseDelete(d, x, ok)
    case FinishCloseOp(x) => FinishClose(d, x)
  }

  lemma StepOk(d: Dir, op: Op)
    requires Ok(d) && Enabled(d, op)
    ensures Ok(Step(d, op))
  {
    hide Ok, PeerTakes, PeerLeaves, ReserveFresh, ReserveResume, ReserveId, WriteRow, Publish, Undo, Release,
         AdmitClose, Detach, LeaveDelete, Offline, ClaimClose, CloseDelete, FinishClose;
    match op
    case PeerTakesOp(id, x) => PeerTakesOk(d, id, x);
    case PeerLeavesOp(x) => PeerLeavesOk(d, x);
    case ReserveFreshOp(row, x, refused) => ReserveFreshOk(d, row, x, refused);
    case ReserveResumeOp(id, policy, x, refused) => ReserveResumeOk(d, id, policy, x, refused);
    case ReserveIdOp(x, id) => ReserveIdOk(d, x, id);
    case WriteRowOp(x, ok) => WriteRowOk(d, x, ok);
    case PublishOp(x, refused) => PublishOk(d, x, refused);
    case UndoOp(x) => UndoOk(d, x);
    case ReleaseOp(x) => ReleaseOk(d, x);
    case AdmitCloseOp(x) => DetachOk(d, x);
    case DetachOp(x) => DetachOk(d, x);
    case LeaveDeleteOp(x) => LeaveDeleteOk(d, x);
    case OfflineOp(x) => OfflineOk(d, x);
    case ClaimCloseOp(id, forget) => ClaimCloseOk(d, id, forget);
    case CloseDeleteOp(x, ok) => CloseDeleteOk(d, x, ok);
    case FinishCloseOp(x) => FinishCloseOk(d, x);
  }

  predicate Possible(d: Dir, ops: seq<Op>)
    decreases |ops|
  {
    ops == [] || (Enabled(d, ops[0]) && Possible(Step(d, ops[0]), ops[1..]))
  }

  function Run(d: Dir, ops: seq<Op>): Dir
    decreases |ops|
  {
    if ops == [] then d else Run(Step(d, ops[0]), ops[1..])
  }

  /** The directory as the daemon builds it from the durable rows: one resting entry for each. */
  ghost predicate Loaded(d: Dir) {
    && d.lost == 0 && d.objects.Keys == d.rows.Keys == d.entries.Keys
    && (forall id :: id in d.rows ==> d.entries[id] == id && d.objects[id] == Entry(id, d.rows[id], true, false, false, Resting))
    && (forall id :: id in d.rows ==> d.rows[id].name in d.names && d.names[d.rows[id].name] == id)
    && (forall n :: n in d.names ==> d.names[n] in d.rows && d.rows[d.names[n]].name == n)
  }

  lemma LoadedOk(d: Dir)
    requires Loaded(d)
    ensures Ok(d)
  {
    forall x | x in d.objects ensures ObjectOk(d, x) {
      assert LookAt(d, x) == Look(d.objects[x], true, true, Some(d.objects[x].row));
    }
  }

  lemma {:induction false} RunOk(d: Dir, ops: seq<Op>)
    requires Ok(d) && Possible(d, ops)
    ensures Ok(Run(d, ops))
    decreases |ops|
  {
    hide Ok, Step, Enabled;
    if ops != [] {
      StepOk(d, ops[0]);
      RunOk(Step(d, ops[0]), ops[1..]);
    }
  }

  /**
    In every run: each unclaimed lane is found by its name and agrees with its
    durable row, each durable row belongs to a lane in the directory, and no
    offline close ever lost its claim.
   */
  lemma {:induction false} RowsAgree(d: Dir, ops: seq<Op>, id: nat)
    requires Loaded(d) && Possible(d, ops)
    ensures var u := Run(d, ops);
      && (Free(u, id) || (id in u.entries && u.entries[id] in u.objects && u.objects[u.entries[id]].phase == Live) ==>
            var e := u.objects[u.entries[id]];
            e.id == id && e.row.name in u.names && u.names[e.row.name] == u.entries[id] && id in u.rows && u.rows[id] == e.row)
      && (id in u.rows ==> id in u.entries && u.entries[id] in u.objects && u.objects[u.entries[id]].phase != Peer)
      && u.lost == 0
  {
    LoadedOk(d);
    RunOk(d, ops);
    hide Loaded, Possible, Run;
    var u := Run(d, ops);
    if id in u.entries {
      ObjectFacts(u, u.entries[id]);
      assert LookAt(u, u.entries[id]).here;
    }
    if Free(u, id) {
      UnclaimedRests(u, id);
    }
  }

  // ---- the directory object ----

  predicate NamesDiffer(rows: map<nat, Row>) { forall i, j :: i in rows && j in rows && i != j ==> rows[i].name != rows[j].name }

  /** The directory holds a resting entry for each of these rows and nothing else. */
  ghost predicate Filled(rows: map<nat, Row>, ids: set<nat>, objects: map<nat, Entry>, entries: map<nat, nat>, names: map<nat, nat>) {
    && ids <= rows.Keys && objects.Keys == ids && entries.Keys == ids
    && (forall id :: id in ids ==> entries[id] == id && objects[id] == Entry(id, rows[id], true, false, false, Resting))
    && (forall id :: id in ids ==> rows[id].name in names && names[rows[id].name] == id)
    && (forall n :: n in names ==> names[n] in ids && rows[names[n]].name == n)
  }

  lemma FilledNone(rows: map<nat, Row>)
    ensures Filled(rows, {}, map[], map[], map[])
  {
  }

  lemma FilledMore(rows: map<nat, Row>, ids: set<nat>, objects: map<nat, Entry>, entries: map<nat, nat>, names: map<nat, nat>, id: nat)
    requires NamesDiffer(rows) && Filled(rows, ids, objects, entries, names) && id in rows && id !in ids
    ensures Filled(rows, ids + {id}, objects[id := Entry(id, rows[id], true, false, false, Resting)], entries[id := id], names[rows[id].name := id])
  {
  }

  lemma FilledLoads(rows: map<nat, Row>, objects: map<nat, Entry>, entries: map<nat, nat>, names: map<nat, nat>)
    requires Filled(rows, rows.Keys, objects, entries, names)
    ensures Loaded(Dir(objects, entries, names, rows, 0))
  {
  }

  /** Build the directory from the durable rows, in whatever order they are read. */
  method Load(rows: map<nat, Row>) returns (objects: map<nat, Entry>, entries: map<nat, nat>, names: map<nat, nat>)
    requires NamesDiffer(rows)
    ensures Filled(rows, rows.Keys, objects, entries, names)
  {
    hide Filled, NamesDiffer;
    objects, entries, names := map[], map[], map[];
    FilledNone(rows);
    var left := rows.Keys;
    ghost var done: set<nat> := {};
    while left != {}
      invariant left !! done && left + done == rows.Keys
      invariant Filled(rows, done, objects, entries, names)
      decreases |left|
    {
      var id :| id in left;
      left := left - {id};
      FilledMore(rows, done, objects, entries, names, id);
      objects := objects[id := Entry(id, rows[id], true, false, false, Resting)];
      entries := entries[id := id];
      names := names[rows[id].name := id];
      done := done + {id};
    }
    assert done == rows.Keys;
  }

  // ---- whole lives ----

  /** Everything but what belongs to identifier id, name n and entry x is as before. */
  predicate Else(d: Dir, u: Dir, x: nat, id: nat, n: nat) {
    && u.objects - {x} == d.objects - {x} && u.entries - {id} == d.entries - {id} && u.names - {n} == d.names - {n}
    && u.rows - {id} == d.rows - {id} && u.lost == d.lost
  }

  /** A lane is there: connected, unclaimed, found by identifier and name, and stored. */
  predicate Stands(u: Dir, x: nat, id: nat, row: Row) {
    && x in u.objects && u.objects[x] == Entry(id, row, true, false, true, Live)
    && Slot(u.entries, id) == Some(x) && Slot(u.names, row.name) == Some(x) && RowAt(u, id) == Some(row)
  }

  /** A lane is at rest under the same identifier and name, with its row, for anybody to resume. */
  predicate Rests(u: Dir, x: nat, id: nat, row: Row) {
    && x in u.objects && u.objects[x] == Entry(id, row, true, false, false, Resting)
    && Slot(u.entries, id) == Some(x) && Slot(u.names, row.name) == Some(x) && RowAt(u, id) == Some(row)
  }

  /** Neither the directory nor the table knows of it any more. */
  predicate Forgotten(u: Dir, id: nat, row: Row) { id !in u.entries && row.name !in u.names && id !in u.rows }

  /** A launch that nothing hinders leads to a lane with the row it was asked for; nobody else is touched. */
  lemma LaunchSucceeds(d: Dir, row: Row, id: nat, x: nat)
    requires x !in d.objects && row.name !in d.names && id !in d.entries
    ensures Publish(WriteRow(ReserveId(ReserveFresh(d, row, x, false), x, id), x, true), x, false) ==
      Dir(d.objects[x := Entry(id, row, true, false, true, Live)], d.entries[id := x], d.names[row.name := x], d.rows[id := row], d.lost)
  {
    NamedLaunch(d, row, id, x);
    hide ReserveFresh, ReserveId;
    var e := Entry(id, row, false, true, false, Launching(Named, None, None));
    NamedStands(Dir(d.objects[x := e], d.entries[id := x], d.names[row.name := x], d.rows, d.lost), row, id, x);
    hide WriteRow, Publish;
    assert d.objects[x := e][x := Entry(id, row, true, false, true, Live)] == d.objects[x := Entry(id, row, true, false, true, Live)];
  }

  lemma NamedLaunch(d: Dir, row: Row, id: nat, x: nat)
    requires x !in d.objects && row.name !in d.names && id !in d.entries
    ensures ReserveId(ReserveFresh(d, row, x, false), x, id) ==
      Dir(d.objects[x := Entry(id, row, false, true, false, Launching(Named, None, None))], d.entries[id := x], d.names[row.name := x], d.rows, d.lost)
  {
    assert d.objects[x := Entry(0, row, false, true, false, Launching(Reserved, None, None))][x := Entry(id, row, false, true, false, Launching(Named, None, None))]
      == d.objects[x := Entry(id, row, false, true, false, Launching(Named, None, None))];
  }

  lemma NamedStands(d: Dir, row: Row, id: nat, x: nat)
    requires x in d.objects && d.objects[x] == Entry(id, row, false, true, false, Launching(Named, None, None)) && Slot(d.entries, id) == Some(x)
    ensures Publish(WriteRow(d, x, true), x, false) ==
      d.(objects := d.objects[x := Entry(id, row, true, false, true, Live)], rows := d.rows[id := row])
  {
    var e := d.objects[x];
    assert d.objects[x := Moved(e, Written)][x := Entry(id, row, true, false, true, Live)] == d.objects[x := Entry(id, row, true, false, true, Live)];
  }

  /** A lane that may be resumed comes back with its name and the policy asked for; what stood for it is gone. */
  lemma ResumeSucceeds(d: Dir, id: nat, policy: nat, x: nat)
    requires Ok(d) && Free(d, id) && x !in d.objects
    ensures var p := d.entries[id];
      var row, u := d.objects[p].row.(policy := policy), Publish(WriteRow(ReserveResume(d, id, policy, x, false), x, true), x, false);
      && Stands(u, x, id, row) && p in u.objects && u.objects[p].phase == Gone
      && u.entries == d.entries[id := x] && u.names == d.names[row.name := x] && u.rows == d.rows[id := row]
  {
    UnclaimedRests(d, id);
    hide Ok;
  }

  /** A lane whose close is admitted is claimed; when its connection ends it rests. */
  lemma LaneComesToRest(d: Dir, x: nat)
    requires Ok(d) && x in d.objects && d.objects[x].phase == Live
    ensures var e, u := d.objects[x], Offline(Detach(d, x), x);
      AdmitClose(d, x).objects[x] == e.(claimed := true) && Rests(u, x, e.id, e.row) && Else(d, u, x, e.id, e.row.name)
  {
    ObjectFacts(d, x);
    hide Ok, IndexOk;
    assert Fits(LookAt(d, x));
  }

  /** Closed with forget, it is forgotten, and its identifier and name are free. */
  lemma LaneIsForgotten(d: Dir, x: nat)
    requires Ok(d) && x in d.objects && d.objects[x].phase == Live
    ensures var e, u := d.objects[x], Offline(LeaveDelete(Detach(d, x), x), x);
      Forgotten(u, e.id, e.row) && Else(d, u, x, e.id, e.row.name)
  {
    ObjectFacts(d, x);
    hide Ok, IndexOk;
    assert Fits(LookAt(d, x));
  }

  lemma RestsMeans(d: Dir, id: nat)
    requires Ok(d) && Free(d, id)
    ensures var p := d.entries[id]; Rests(d, p, id, d.objects[p].row)
  {
    UnclaimedRests(d, id);
    ObjectFacts(d, d.entries[id]);
    hide Ok, IndexOk;
    assert Fits(LookAt(d, d.entries[id]));
  }

  /** A lane that rests is claimed by who closes it; kept, or if its row cannot be deleted, it rests as before. */
  lemma RestingLaneIsKept(d: Dir, id: nat, forget: bool)
    requires Ok(d) && Free(d, id)
    ensures var p, c := d.entries[id], ClaimClose(d, id, forget);
      !Free(c, id) && FinishClose(if forget then CloseDelete(c, p, false) else c, p) == d
  {
    RestsMeans(d, id);
    hide Ok;
    var p := d.entries[id];
    assert d.objects[p := d.objects[p]] == d.objects;
  }

  /** Otherwise it is forgotten. */
  lemma RestingLaneIsForgotten(d: Dir, id: nat)
    requires Ok(d) && Free(d, id)
    ensures var p := d.entries[id];
      var u := FinishClose(CloseDelete(ClaimClose(d, id, true), p, true), p);
      Else(d, u, p, id, d.objects[p].row.name) && Forgotten(u, id, d.objects[p].row)
  {
    RestsMeans(d, id);
    hide Ok;
  }

  /** A peer takes an identifier that no lane has, displacing a peer that had it, and leaves it free. */
  lemma PeerComesAndGoes(d: Dir, id: nat, x: nat)
    requires Ok(d) && x !in d.objects && (id in d.entries ==> d.objects[d.entries[id]].phase == Peer)
    ensures var u := PeerTakes(d, id, x);
      && Slot(u.entries, id) == Some(x) && u.objects[x].phase == Peer && u.objects[x].attached && u.rows == d.rows && u.names == d.names
      && (id in d.entries ==> u.objects[d.entries[id]].phase == Gone) && id !in PeerLeaves(u, x).entries
  {
  }

  /** A lane is never displaced by a peer. */
  lemma LaneStays(d: Dir, id: nat, x: nat)
    requires id in d.entries && d.entries[id] in d.objects && d.objects[d.entries[id]].phase != Peer
    ensures PeerTakes(d, id, x) == d
  {
  }


  /** The directory's fields; entries are objects, named by number so that two fields can share one. */
  class Directory {
    var objects: map<nat, Entry>
    var entries: map<nat, nat>
    var names: map<nat, nat>
    var rows: map<nat, Row>
    ghost var lost: nat

    ghost function Snapshot(): Dir
      reads this
    {
      Dir(objects, entries, names, rows, lost)
    }

    /** One resting entry for every durable row; the rows have distinct names. */
    constructor (loaded: map<nat, Row>)
      requires NamesDiffer(loaded)
      ensures Loaded(Snapshot()) && rows == loaded
    {
      rows, lost := loaded, 0;
      var o, e, n := Load(loaded);
      objects, entries, names := o, e, n;
      new;
      FilledLoads(loaded, o, e, n);
    }

    method ReserveNew(row: Row, x: nat, refused: bool) returns (ok: bool)
      requires x !in objects
      modifies this
      ensures Snapshot() == ReserveFresh(old(Snapshot()), row, x, refused)
      ensures ok <==> !refused && row.name !in old(names)
      ensures ok ==> x in objects && objects[x].claimed && row.name in names && names[row.name] == x
    {
      if refused || row.name in names {
        return false;
      }
      objects := objects[x := Entry(0, row, false, true, false, Launching(Reserved, None, None))];
      names := names[row.name := x];
      return true;
    }

    method Resume(id: nat, policy: nat, x: nat, refused: bool) returns (ok: bool)
      requires x !in objects
      modifies this
      ensures Snapshot() == ReserveResume(old(Snapshot()), id, policy, x, refused)
      ensures ok <==>
        && !refused && id in old(entries) && old(entries)[id] in old(objects)
        && old(objects)[old(entries)[id]].phase != Peer && !old(objects)[old(entries)[id]].claimed && !old(objects)[old(entries)[id]].attached
      ensures ok ==> entries[id] == x && objects[x].claimed && objects[x].row.policy == policy
    {
      if id !in entries || entries[id] !in objects {
        return false;
      }
      var p := entries[id];
      var before := objects[p];
      if before.phase == Peer || before.claimed || before.attached || refused {
        return false;
      }
      objects := objects[p := before.(phase := Shadowed(x))];
      objects := objects[x := Entry(id, before.row.(policy := policy), before.created, true, false, Launching(Named, Some(p), Some(before.row)))];
      entries := entries[id := x];
      names := names[before.row.name := x];
      return true;
    }

    method TakeId(x: nat, id: nat) returns (ok: bool)
      requires At(Snapshot(), x, Reserved)
      modifies this
      ensures Snapshot() == ReserveId(old(Snapshot()), x, id) && ok == (old(objects)[x].claimed && id !in old(entries))
    {
      var e := objects[x].(id := id);
      ok := e.claimed && id !in entries;
      objects := objects[x := Moved(e, if ok then Named else Aborted)];
      if ok {
        entries := entries[id := x];
      }
    }

    method Commit(x: nat, refused: bool) returns (ok: bool)
      requires At(Snapshot(), x, Written)
      modifies this`objects
      ensures Snapshot() == Publish(old(Snapshot()), x, refused) && x in objects && ok == (objects[x].phase == Live)
    {
      var e := objects[x];
      if refused || e.id !in entries || entries[e.id] != x || !e.claimed || e.attached {
        objects := objects[x := Moved(e, Undoing)];
        return false;
      }
      objects := objects[x := e.(claimed := false, attached := true, created := true, phase := Live)];
      var previous := e.phase.previous;
      if previous.Some? && previous.value in objects && previous.value != x {
        objects := objects[previous.value := objects[previous.value].(phase := Gone)];
      }
      return true;
    }

    method ReleaseLaunch(x: nat)
      requires x in objects
      modifies this
      ensures Snapshot() == Release(old(Snapshot()), x)
    {
      var e := objects[x];
      if !e.phase.Launching? || Stored(e.phase.stage) || !e.claimed {
        return;
      }
      var previous := e.phase.previous;
      objects := objects[x := e.(claimed := false, phase := Gone)];
      if previous.Some? && previous.value in objects && previous.value != x && e.created {
        objects := objects[previous.value := objects[previous.value].(phase := Resting)];
        entries := entries[e.id := previous.value];
        names := names[e.row.name := previous.value];
        return;
      }
      if e.row.name in names && names[e.row.name] == x {
        names := names - {e.row.name};
      }
      if e.id in entries && entries[e.id] == x {
        entries := entries - {e.id};
      }
    }

    method GoOffline(x: nat)
      requires x in objects
      modifies this
      ensures Snapshot() == Offline(old(Snapshot()), x)
    {
      var e := objects[x];
      if !e.phase.Leaving? {
        return;
      }
      objects := objects[x := e.(claimed := false, phase := if e.phase.deleted then Gone else Resting)];
      if e.phase.deleted && e.id in entries && entries[e.id] == x {
        entries := entries - {e.id};
        names := names - {e.row.name};
      }
    }

    method FinishOfflineClose(x: nat) returns (completed: bool)
      requires x in objects && objects[x].phase.Closing? && objects[x].phase != Closing(true, Claimed)
      modifies this
      ensures Snapshot() == FinishClose(old(Snapshot()), x) && completed == (lost == old(lost))
    {
      var e := objects[x];
      if e.id !in entries || entries[e.id] != x || e.attached || !e.claimed {
        objects := objects[x := e.(phase := Gone)];
        lost := lost + 1;
        return false;
      }
      objects := objects[x := e.(claimed := false, phase := if e.phase.step == Deleted then Gone else Resting)];
      if e.phase.step == Deleted {
        if e.row.name in names && names[e.row.name] == x {
          names := names - {e.row.name};
        }
        entries := entries - {e.id};
      }
      return true;
    }
  }
}
