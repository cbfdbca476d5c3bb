/**
 The resumable installer.  Its phase counter lives in the cluster document and is
 changed under the lease only, so this machine extends the atomic protocol: each
 PatchWithLease is one of its commits.  Workers may crash, lose their lease or
 resume at any point; a phase is an action that returns or does not.

 An "era" is the life of one Install record: it begins when Install goes from nil
 to non-nil.
 */
module Installation {
  import opened Wrappers
  import opened Documents
  import opened Protocol
  import opened StoreInvariants
  import opened Lifecycle

  const LAST_PHASE: int := 2

  /** Where a session is in Install; `phase` and `era` are those of the document it last read. */
  datatype Position =
    | Outside
    | Ready(phase: int, era: nat)      // about to start the phase
    | Running(phase: int, era: nat)
    | Passed(phase: int, era: nat)     // the phase returned success
    | Complete(era: nat)               // Install returned success

  /** `phase` of the install of document `id` returned success during `era`. */
  datatype Success = Success(id: DocId, era: nat, phase: int)

  datatype World = World(
    s: State,
    at: map<SessionId, Position>,
    eras: map<DocId, nat>,
    successes: set<Success>)

  datatype Move =
    | Other(event: Event)
    | Enter(session: SessionId)
    | Start(session: SessionId)
    | Return(session: SessionId, ok: bool)
    | Advance(session: SessionId)
    | Clear(session: SessionId)

  function Era(x: World, id: DocId): nat {
    if id in x.eras then x.eras[id] else 0
  }

  function Where(x: World, y: SessionId): Position {
    if y in x.at then x.at[y] else Outside
  }

  predicate EditsInstall(e: Event) {
    e.Commit? && e.write.PatchWithLease? && !e.write.edit.SetContent?
  }

  /** The PatchWithLease that a move performs on the document with the session's key. */
  predicate Patches(v: Move) {
    v.Enter? || v.Advance? || v.Clear?
  }

  function PatchOf(x: World, v: Move): Event
    requires Patches(v) && v.session in x.s.sessions
  {
    var session := x.s.sessions[v.session];
    var edit := match v { case Enter(_) => InitInstall case Advance(_) => NextPhase case _ => ClearInstall };
    Commit(PatchWithLease(session.uuid, edit), session.id)
  }

  ghost predicate May(m: Mode, x: World, v: Move) {
    match v
    case Other(e) => Enabled(m, x.s, e) && !EditsInstall(e)
    case Enter(y) =>
      && y in x.s.sessions && x.s.sessions[y].state.Creating? && !x.s.sessions[y].overLimit
      && Where(x, y).Outside? && Enabled(m, x.s, PatchOf(x, v))
    case Start(y) => y in x.s.sessions && Where(x, y).Ready? && 0 <= Where(x, y).phase <= LAST_PHASE
    case Return(y, _) => y in x.s.sessions && Where(x, y).Running?
    case Advance(y) =>
      y in x.s.sessions && Where(x, y).Passed? && Where(x, y).phase < LAST_PHASE && Enabled(m, x.s, PatchOf(x, v))
    case Clear(y) =>
      y in x.s.sessions && Where(x, y).Passed? && Where(x, y).phase == LAST_PHASE && Enabled(m, x.s, PatchOf(x, v))
  }

  function Moved(m: Mode, x: World, v: Move): World
    requires May(m, x, v)
  {
    match v
    case Other(e) =>
      var t := After(m, x.s, e);
      x.(s := t, at := map y | y in x.at && y in t.sessions && y in x.s.sessions :: x.at[y])
    case Start(y) => x.(at := x.at[y := Running(Where(x, y).phase, Where(x, y).era)])
    case Return(y, ok) =>
      var at := Where(x, y);
      if ok then
        x.(at := x.at[y := Passed(at.phase, at.era)],
           successes := x.successes + {Success(x.s.sessions[y].id, at.era, at.phase)})
      else x.(at := x.at[y := Outside])
    case Enter(y) =>
      var t := After(m, x.s, PatchOf(x, v));
      var id := x.s.sessions[y].id;
      var z := x.(s := t, eras := if x.s.docs[id].install.None? then x.eras[id := Era(x, id) + 1] else x.eras);
      z.(at := x.at[y := Ready(t.docs[id].install.value, Era(z, id))])
    case Advance(y) =>
      var t := After(m, x.s, PatchOf(x, v));
      var id := x.s.sessions[y].id;
      x.(s := t, at := x.at[y := Ready(t.docs[id].install.value, Era(x, id))])
    case Clear(y) =>
      x.(s := After(m, x.s, PatchOf(x, v)), at := x.at[y := Complete(Where(x, y).era)])
  }

  predicate InitWorld(x: World) {
    Init(x.s) && x == World(x.s, map[], map[], {})
  }

  ghost predicate IsHistory(m: Mode, xs: seq<World>, vs: seq<Move>) {
    && |xs| == |vs| + 1
    && InitWorld(xs[0])
    && forall i :: 0 <= i < |vs| ==> May(m, xs[i], vs[i]) && xs[i + 1] == Moved(m, xs[i], vs[i])
  }

  // ---- invariants ----

  /** Phases 0..phase-1 of the install of `id` have returned success during `era`. */
  ghost predicate Before(x: World, id: DocId, era: nat, phase: int) {
    forall q :: 0 <= q < phase ==> Success(id, era, q) in x.successes
  }

  predicate Recognised(phase: int) {
    0 <= phase <= LAST_PHASE
  }

  ghost predicate DocInv(x: World, id: DocId)
    requires id in x.s.docs
  {
    x.s.docs[id].install.Some? ==>
      Recognised(x.s.docs[id].install.value) && Before(x, id, Era(x, id), x.s.docs[id].install.value)
  }

  ghost predicate PlaceInv(x: World, session: Session, at: Position) {
    match at
    case Outside => true
    case Complete(era) => Before(x, session.id, era, LAST_PHASE + 1)
    case _ =>
      && Recognised(at.phase)
      && Before(x, session.id, at.era, at.phase)
      && (at.Passed? ==> Success(session.id, at.era, at.phase) in x.successes)
      && (HoldsLease(x.s, session) ==>
            at.era == Era(x, session.id) && x.s.docs[session.id].install == Some(at.phase))
  }

  ghost predicate WorldInv(x: World) {
    && StoreInv(x.s) && KeysInv(x.s) && HeldInv(x.s)
    && (forall y :: y in x.at ==> y in x.s.sessions)
    && (forall id :: id in x.s.docs ==> DocInv(x, id))
    && (forall y :: y in x.s.sessions ==> PlaceInv(x, x.s.sessions[y], Where(x, y)))
  }

  // ---- preservation ----

  lemma OthersKeepInstall(m: Mode, s: State, e: Event, id: DocId)
    requires Enabled(m, s, e) && !EditsInstall(e) && DocsInv(s) && id in After(m, s, e).docs
    ensures After(m, s, e).docs[id].install == if id in s.docs then s.docs[id].install else None
  {
    hide Enabled, After, Edit, Result, Guard;
    if e.Commit? {
      CommitEffect(m, s, e.write, e.id);
      if e.id == id {
        OtherEditsKeepInstall(e.write, s.docs[id], s.now);
      }
    } else {
      DirectEffect(m, s, e);
    }
  }

  lemma OtherEditsKeepInstall(w: Write, doc: Document, now: nat)
    requires Edit(w, doc).Edited? && !(w.PatchWithLease? && !w.edit.SetContent?)
    ensures Result(w, doc, now).install == doc.install
  {}

  /** No event but its own Dequeue gives a session the lease, and that one creates the session. */
  lemma NoLeaseFromNowhere(m: Mode, s: State, e: Event, y: SessionId)
    requires m.oneSession && Enabled(m, s, e) && DocsInv(s) && HeldInv(s)
    requires y in s.sessions && y in After(m, s, e).sessions
    requires HoldsLease(After(m, s, e), After(m, s, e).sessions[y])
    ensures After(m, s, e).sessions[y].id == s.sessions[y].id
    ensures HoldsLease(s, s.sessions[y])
  {
    hide Enabled, After, Edit, Result, LeaseInv, LoneInv, GoodDocument;
    var id := s.sessions[y].id;
    SessionEffect(m, s, e, y);
    if e.Commit? {
      CommitEffect(m, s, e.write, e.id);
      if e.id == id {
        assert s.docs[id].identity.key == s.sessions[y].key;
        OwnerGained(e.write, s.docs[id], s.now, s.sessions[y].uuid);
      }
    } else {
      DirectEffect(m, s, e);
    }
  }

  lemma OwnerGained(w: Write, doc: Document, now: nat, u: Uuid)
    requires Edit(w, doc).Edited? && Result(w, doc, now).leaseOwner == Some(u)
    ensures doc.leaseOwner == Some(u) || (w.Dequeue? && w.uuid == u)
  {}

  lemma MoveKeepsProtocol(m: Mode, x: World, v: Move)
    requires m.oneSession && WorldInv(x) && May(m, x, v)
    ensures StoreInv(Moved(m, x, v).s) && KeysInv(Moved(m, x, v).s) && HeldInv(Moved(m, x, v).s)
  {
    hide DocInv, PlaceInv, DocsInv, KeysInv, HeldInv, Enabled, After;
    if v.Other? {
      StepKeepsStore(m, x.s, v.event);
      StepKeepsHeld(m, x.s, v.event);
    } else if Patches(v) {
      StepKeepsStore(m, x.s, PatchOf(x, v));
      StepKeepsHeld(m, x.s, PatchOf(x, v));
    }
  }

  lemma PlaceFrame(x: World, z: World, session: Session, moved: Session, at: Position)
    requires PlaceInv(x, session, at) && x.successes <= z.successes && moved.id == session.id
    requires HoldsLease(z.s, moved) ==>
      && HoldsLease(x.s, session) && Era(z, session.id) == Era(x, session.id)
      && z.s.docs[session.id].install == x.s.docs[session.id].install
    ensures PlaceInv(z, moved, at)
  {}

  lemma DocFrame(x: World, z: World, id: DocId)
    requires id in x.s.docs && DocInv(x, id) && x.successes <= z.successes
    requires id in z.s.docs && z.s.docs[id].install == x.s.docs[id].install && Era(z, id) == Era(x, id)
    ensures DocInv(z, id)
  {}

  lemma OtherKeepsWorld(m: Mode, x: World, v: Move)
    requires m.oneSession && WorldInv(x) && May(m, x, v) && v.Other?
    ensures WorldInv(Moved(m, x, v))
  {
    hide PlaceInv, DocInv, KeysInv;
    MoveKeepsProtocol(m, x, v);
    var z := Moved(m, x, v);
    forall id | id in z.s.docs ensures DocInv(z, id) {
      OthersKeepInstall(m, x.s, v.event, id);
      if id in x.s.docs {
        DocFrame(x, z, id);
      } else {
        NewDocInv(z, id);
      }
    }
    forall y | y in z.s.sessions ensures PlaceInv(z, z.s.sessions[y], Where(z, y)) {
      if y in x.s.sessions {
        SessionKeepsPlace(m, x, v, y);
      } else {
        OutsideInv(z, z.s.sessions[y]);
      }
    }
  }

  lemma NewDocInv(x: World, id: DocId)
    requires id in x.s.docs && x.s.docs[id].install.None?
    ensures DocInv(x, id)
  {}

  lemma OutsideInv(x: World, session: Session)
    ensures PlaceInv(x, session, Outside)
  {}

  lemma SessionKeepsPlace(m: Mode, x: World, v: Move, y: SessionId)
    requires m.oneSession && WorldInv(x) && May(m, x, v) && v.Other?
    requires y in x.s.sessions && y in Moved(m, x, v).s.sessions
    ensures PlaceInv(Moved(m, x, v), Moved(m, x, v).s.sessions[y], Where(Moved(m, x, v), y))
  {
    hide PlaceInv, DocInv, KeysInv, Enabled, After, HeldInv, DocsInv, SessionsInv, AsyncsInv;
    var z := Moved(m, x, v);
    SessionEffect(m, x.s, v.event, y);
    if HoldsLease(z.s, z.s.sessions[y]) {
      NoLeaseFromNowhere(m, x.s, v.event, y);
      OthersKeepInstall(m, x.s, v.event, x.s.sessions[y].id);
    }
    PlaceFrame(x, z, x.s.sessions[y], z.s.sessions[y], Where(x, y));
  }

  lemma RunningKeepsWorld(m: Mode, x: World, v: Move)
    requires WorldInv(x) && May(m, x, v) && (v.Start? || v.Return?)
    ensures WorldInv(Moved(m, x, v))
  {
    hide KeysInv, HeldInv, StoreInv;
    var z := Moved(m, x, v);
    forall id | id in z.s.docs ensures DocInv(z, id) {
      DocFrame(x, z, id);
    }
    forall y | y in z.s.sessions ensures PlaceInv(z, z.s.sessions[y], Where(z, y)) {
      PlaceFrame(x, z, x.s.sessions[y], x.s.sessions[y], Where(x, y));
    }
  }

  /** A session whose PatchWithLease is accepted holds the lease, and no other session does. */
  lemma PatcherHolds(m: Mode, x: World, v: Move)
    requires WorldInv(x) && May(m, x, v) && Patches(v)
    ensures HoldsLease(x.s, x.s.sessions[v.session])
    ensures forall y :: y in x.s.sessions && y != v.session && x.s.sessions[y].id == x.s.sessions[v.session].id
              ==> !HoldsLease(x.s, x.s.sessions[y])
  {
    hide PlaceInv, DocInv, KeysInv, StoreInv, Guard;
  }

  lemma PatcherKeepsPlace(m: Mode, x: World, v: Move)
    requires WorldInv(x) && May(m, x, v) && Patches(v) && HoldsLease(x.s, x.s.sessions[v.session])
    ensures var z := Moved(m, x, v); var session := x.s.sessions[v.session];
      && z.s.sessions == x.s.sessions && session.id in z.s.docs
      && DocInv(z, session.id) && PlaceInv(z, session, Where(z, v.session))
  {
    hide KeysInv, StoreInv, HeldInv, Guard;
    var session := x.s.sessions[v.session];
    assert PlaceInv(x, session, Where(x, v.session)) && DocInv(x, session.id);
  }

  lemma PatchKeepsWorld(m: Mode, x: World, v: Move)
    requires m.oneSession && WorldInv(x) && May(m, x, v) && Patches(v)
    ensures WorldInv(Moved(m, x, v))
  {
    hide KeysInv, StoreInv, HeldInv, Guard, PlaceInv, DocInv;
    MoveKeepsProtocol(m, x, v);
    PatcherHolds(m, x, v);
    PatcherKeepsPlace(m, x, v);
    var z := Moved(m, x, v);
    forall id | id in z.s.docs ensures DocInv(z, id) {
      if id != x.s.sessions[v.session].id {
        DocFrame(x, z, id);
      }
    }
    forall y | y in z.s.sessions ensures PlaceInv(z, z.s.sessions[y], Where(z, y)) {
      if y != v.session {
        PlaceFrame(x, z, x.s.sessions[y], x.s.sessions[y], Where(x, y));
      }
    }
  }

  lemma MoveKeepsWorld(m: Mode, x: World, v: Move)
    requires m.oneSession && WorldInv(x) && May(m, x, v)
    ensures WorldInv(Moved(m, x, v))
  {
    hide WorldInv, May, Moved;
    match v
    case Other(_) => OtherKeepsWorld(m, x, v);
    case Start(_) => RunningKeepsWorld(m, x, v);
    case Return(_, _) => RunningKeepsWorld(m, x, v);
    case _ => PatchKeepsWorld(m, x, v);
  }

  lemma InitWorldInv(x: World)
    requires InitWorld(x)
    ensures WorldInv(x)
  {
    InitStore(x.s);
  }

  lemma {:induction false} HistoryKeepsWorld(m: Mode, xs: seq<World>, vs: seq<Move>, n: nat)
    requires m.oneSession && IsHistory(m, xs, vs) && n < |xs|
    ensures WorldInv(xs[n])
  {
    hide WorldInv, May, Moved, InitWorld;
    if n == 0 {
      InitWorldInv(xs[0]);
    } else {
      HistoryKeepsWorld(m, xs, vs, n - 1);
      MoveKeepsWorld(m, xs[n - 1], vs[n - 1]);
    }
  }

  // ---- the life of an Install record ----

  /** `phase` of the install of `id` returned success in `v`, in `era`. */
  predicate ReturnsOf(x: World, v: Move, g: Success) {
    && v.Return? && v.ok && v.session in x.s.sessions
    && Where(x, v.session) == Running(g.phase, g.era) && x.s.sessions[v.session].id == g.id
  }

  lemma {:induction false} SuccessHappened(m: Mode, xs: seq<World>, vs: seq<Move>, n: nat, g: Success)
    requires IsHistory(m, xs, vs) && n < |xs| && g in xs[n].successes
    ensures exists k: nat :: k < n && ReturnsOf(xs[k], vs[k], g)
  {
    if n > 0 {
      if g in xs[n - 1].successes {
        SuccessHappened(m, xs, vs, n - 1, g);
      } else {
        assert ReturnsOf(xs[n - 1], vs[n - 1], g);
      }
    }
  }

  function InstallOf(s: State, id: DocId): Option<int> {
    if id in s.docs then s.docs[id].install else None
  }

  function EraOf(at: Position): nat {
    if at.Outside? then 0 else at.era
  }

  /** No session is ahead of the record of its document. */
  ghost predicate NoFutureEra(x: World) {
    forall y :: y in x.s.sessions ==> EraOf(Where(x, y)) <= Era(x, x.s.sessions[y].id)
  }

  lemma MoveKeepsEras(m: Mode, x: World, v: Move)
    requires May(m, x, v) && NoFutureEra(x)
    ensures NoFutureEra(Moved(m, x, v))
    ensures forall id :: Era(x, id) <= Era(Moved(m, x, v), id)
  {
    hide Enabled, After;
    var z := Moved(m, x, v);
    if Patches(v) {
      NoNewSession(m, x.s, PatchOf(x, v));
    }
    forall y | y in z.s.sessions ensures EraOf(Where(z, y)) <= Era(z, z.s.sessions[y].id) {
      if v.Other? {
        SessionEffect(m, x.s, v.event, y);
      }
    }
  }

  lemma NoNewSession(m: Mode, s: State, e: Event)
    requires Enabled(m, s, e) && e.Commit? && e.write.PatchWithLease?
    ensures After(m, s, e).sessions == s.sessions
  {
    hide Edit, Result;
  }

  /** When Install goes from nil to non-nil, a new era begins. */
  lemma NewRecordNewEra(m: Mode, x: World, v: Move, id: DocId)
    requires May(m, x, v) && DocsInv(x.s) && InstallOf(x.s, id).None? && InstallOf(Moved(m, x, v).s, id).Some?
    ensures Era(x, id) < Era(Moved(m, x, v), id)
  {
    if v.Other? {
      OthersKeepInstall(m, x.s, v.event, id);
    }
  }

  lemma {:induction false} ErasRise(m: Mode, xs: seq<World>, vs: seq<Move>, k: nat, n: nat, id: DocId)
    requires IsHistory(m, xs, vs) && k <= n < |xs|
    ensures NoFutureEra(xs[n]) && Era(xs[k], id) <= Era(xs[n], id)
    decreases n
  {
    hide May, Moved, NoFutureEra;
    if n == 0 {
      InitEras(xs[0]);
    } else {
      ErasRise(m, xs, vs, if k < n then k else 0, n - 1, id);
      MoveKeepsEras(m, xs[n - 1], vs[n - 1]);
    }
  }

  lemma InitEras(x: World)
    requires InitWorld(x)
    ensures NoFutureEra(x)
  {}

  /** As long as the era does not change, a record that is there at the end was there all along. */
  lemma {:induction false} RecordStays(m: Mode, xs: seq<World>, vs: seq<Move>, l: nat, n: nat, id: DocId)
    requires m.oneSession && IsHistory(m, xs, vs) && l <= n < |xs|
    requires InstallOf(xs[n].s, id).Some? && Era(xs[l], id) == Era(xs[n], id)
    ensures InstallOf(xs[l].s, id).Some?
    decreases n - l
  {
    hide May, Moved, PlaceInv, DocInv, KeysInv, HeldInv;
    if l < n {
      ErasRise(m, xs, vs, l, l + 1, id);
      ErasRise(m, xs, vs, l + 1, n, id);
      RecordStays(m, xs, vs, l + 1, n, id);
      HistoryKeepsWorld(m, xs, vs, l);
      if InstallOf(xs[l].s, id).None? {
        NewRecordNewEra(m, xs[l], vs[l], id);
      }
    }
  }

  // ---- the theorems ----

  /** Move `k` is the successful return of phase `q` of the install of `id`. */
  predicate Returns(x: World, v: Move, id: DocId, q: int) {
    && v.Return? && v.ok && v.session in x.s.sessions
    && Where(x, v.session).Running? && Where(x, v.session).phase == q && x.s.sessions[v.session].id == id
  }

  /** Phase `q` returned success in move `k`, and Install has not been nil between then and state `n`. */
  ghost predicate RanSince(xs: seq<World>, vs: seq<Move>, k: nat, n: nat, id: DocId, q: int)
    requires |xs| == |vs| + 1 && n < |xs|
  {
    && k < n && Returns(xs[k], vs[k], id, q)
    && forall l :: k <= l <= n ==> InstallOf(xs[l].s, id).Some?
  }

  ghost predicate HasRun(xs: seq<World>, vs: seq<Move>, n: nat, id: DocId, q: int)
    requires |xs| == |vs| + 1 && n < |xs|
  {
    exists k: nat :: RanSince(xs, vs, k, n, id, q)
  }

  lemma SuccessInThisEra(m: Mode, xs: seq<World>, vs: seq<Move>, n: nat, id: DocId, q: int)
    requires m.oneSession && IsHistory(m, xs, vs) && n < |xs|
    requires InstallOf(xs[n].s, id).Some? && Success(id, Era(xs[n], id), q) in xs[n].successes
    ensures HasRun(xs, vs, n, id, q)
  {
    hide May, Moved;
    var g := Success(id, Era(xs[n], id), q);
    SuccessHappened(m, xs, vs, n, g);
    var k: nat :| k < n && ReturnsOf(xs[k], vs[k], g);
    ErasRise(m, xs, vs, k, k, id);
    forall l | k <= l <= n ensures InstallOf(xs[l].s, id).Some? {
      ErasRise(m, xs, vs, k, l, id);
      ErasRise(m, xs, vs, l, n, id);
      RecordStays(m, xs, vs, l, n, id);
    }
    assert RanSince(xs, vs, k, n, id, q);
  }

  /**
   A lease holder is about to start a phase only if Install is not nil and, since
   it last was, every earlier phase has returned success.
   */
  lemma PhasesRunInOrder(m: Mode, xs: seq<World>, vs: seq<Move>, n: nat, y: SessionId)
    requires m.oneSession && IsHistory(m, xs, vs) && n < |xs|
    requires y in xs[n].s.sessions && Where(xs[n], y).Ready? && HoldsLease(xs[n].s, xs[n].s.sessions[y])
    ensures InstallOf(xs[n].s, xs[n].s.sessions[y].id) == Some(Where(xs[n], y).phase)
    ensures forall q :: 0 <= q < Where(xs[n], y).phase ==> HasRun(xs, vs, n, xs[n].s.sessions[y].id, q)
  {
    hide May, Moved, RanSince, HasRun, StoreInv, KeysInv, HeldInv;
    HistoryKeepsWorld(m, xs, vs, n);
    assert PlaceInv(xs[n], xs[n].s.sessions[y], Where(xs[n], y));
    forall q | 0 <= q < Where(xs[n], y).phase ensures HasRun(xs, vs, n, xs[n].s.sessions[y].id, q) {
      SuccessInThisEra(m, xs, vs, n, xs[n].s.sessions[y].id, q);
    }
  }

  /** When Install clears its record, and so returns success, all three phases have returned success since it was last nil. */
  lemma SuccessMeansAllPhases(m: Mode, xs: seq<World>, vs: seq<Move>, n: nat, q: int)
    requires m.oneSession && IsHistory(m, xs, vs) && n < |vs| && vs[n].Clear? && Recognised(q)
    ensures HasRun(xs, vs, n, xs[n].s.sessions[vs[n].session].id, q)
  {
    hide Moved, RanSince, HasRun, StoreInv, KeysInv, HeldInv, Enabled;
    HistoryKeepsWorld(m, xs, vs, n);
    PatcherHolds(m, xs[n], vs[n]);
    var y := vs[n].session;
    assert PlaceInv(xs[n], xs[n].s.sessions[y], Where(xs[n], y));
    SuccessInThisEra(m, xs, vs, n, xs[n].s.sessions[y].id, q);
  }

  /** No worker meets an unrecognised phase, and none dereferences a nil Install. */
  lemma NoUnrecognisedPhase(m: Mode, xs: seq<World>, vs: seq<Move>, n: nat, y: SessionId)
    requires m.oneSession && IsHistory(m, xs, vs) && n < |xs| && y in xs[n].s.sessions
    ensures Where(xs[n], y).Ready? ==> Recognised(Where(xs[n], y).phase)
    ensures var session := xs[n].s.sessions[y];
      Where(xs[n], y).Passed? && session.id in xs[n].s.docs ==>
        !Edit(PatchWithLease(session.uuid, NextPhase), xs[n].s.docs[session.id]).NilDereference?
  {
    hide StoreInv, KeysInv, HeldInv, May, Moved;
    HistoryKeepsWorld(m, xs, vs, n);
    assert PlaceInv(xs[n], xs[n].s.sessions[y], Where(xs[n], y));
  }

  /** Only the work on a creation installs. */
  lemma OnlyCreationInstalls(m: Mode, x: World, v: Move)
    requires May(m, x, v) && v.Enter?
    ensures v.session in x.s.sessions && Dispatch(x.s.sessions[v.session].state).CreateCluster?
  {
    hide Enabled;
  }

  // ---- one call of Install, uninterrupted or not ----

  /** How a phase and the PatchWithLease after it end; a call whose results run out has crashed. */
  datatype PhaseResult = Passes | PhaseError | PatchError

  class StoredInstall {
    var phase: Option<int>

    constructor (phase: Option<int>)
      ensures this.phase == phase
    {
      this.phase := phase;
    }
  }

  function ResumesAt(phase: Option<int>): int {
    if phase.None? then 0 else phase.value
  }

  /** How many of the results pass before one does not. */
  function Passing(results: seq<PhaseResult>): nat {
    if results == [] || !results[0].Passes? then 0 else 1 + Passing(results[1..])
  }

  lemma {:induction false} PassingPrefix(results: seq<PhaseResult>, n: nat)
    requires n <= |results| && forall i :: 0 <= i < n ==> results[i].Passes?
    ensures n <= Passing(results) <= |results|
    ensures n == |results| || !results[n].Passes? ==> Passing(results) == n
  {
    if n > 0 {
      PassingPrefix(results[1..], n - 1);
    } else if results != [] && results[0].Passes? {
      PassingPrefix(results[1..], 0);
    }
  }

  function Min(x: int, y: int): int {
    if x < y then x else y
  }

  /**
   The phase loop.  It starts the phases from the stored one on, one after the
   other, until one does not pass, the process crashes, or all have passed.  It
   succeeds exactly in the last case, and then the record is cleared; otherwise the
   record is at the phase to resume with, the one after all that have passed.
   */
  method Install(doc: StoredInstall, results: seq<PhaseResult>) returns (ok: bool, started: seq<int>)
    modifies doc
    ensures var first := old(ResumesAt(doc.phase)); forall i :: 0 <= i < |started| ==> started[i] == first + i
    ensures var first, passed := old(ResumesAt(doc.phase)), Passing(results);
      if !Recognised(first) then !ok && started == [] && doc.phase == Some(first)
      else
        var needed := LAST_PHASE + 1 - first;
        && (ok <==> needed <= passed)
        && |started| == Min(needed, Min(passed + 1, |results|))
        && doc.phase == if ok then None else Some(first + passed)
  {
    ghost var first := ResumesAt(doc.phase);
    if doc.phase.None? {
      doc.phase := Some(0);
    }
    started := [];
    for i := 0 to |results|
      invariant |started| == i && doc.phase == Some(first + i) && (i > 0 ==> Recognised(first) && Recognised(first + i))
      invariant forall k :: 0 <= k < |started| ==> started[k] == first + k
      invariant forall k :: 0 <= k < i ==> results[k].Passes?
    {
      if !Recognised(doc.phase.value) {
        return false, started;
      }
      started := started + [doc.phase.value];
      if !results[i].Passes? {
        PassingPrefix(results, i);
        return false, started;
      }
      PassingPrefix(results, i + 1);
      if doc.phase.value == LAST_PHASE {
        doc.phase := None;
        return true, started;
      }
      doc.phase := Some(doc.phase.value + 1);
    }
    PassingPrefix(results, |results|);
    return false, started;
  }
}
