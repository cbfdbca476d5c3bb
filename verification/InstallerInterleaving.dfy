/**
 The installer as it runs: each of its PatchWithLease calls reads the document and
 sends a Replace later, among the writes of all the others.  With conditional writes
 this machine is `Installation`, in which the calls are atomic.
 */
module InstallerInterleaving {
  import opened Wrappers
  import opened Documents
  import opened Protocol
  import opened StoreInvariants
  import opened Concurrency
  import opened Lifecycle
  import opened Installation

  /** The server and the installers; `patching` are the calls of PatchWithLease under way, by session. */
  datatype Site = Site(
    v: Server,
    at: map<SessionId, Position>,
    eras: map<DocId, nat>,
    successes: set<Success>,
    patching: map<SessionId, nat>)

  datatype Step =
    | Act(a: Action)                                          // anybody else
    | ReadPatch(session: SessionId, flight: nat, id: DocId)   // PatchWithLease reads the document with the session's key
    | SendPatch(session: SessionId)                           // the server accepts its Replace
    | DropPatch(session: SessionId)                           // refused or failed; it may be tried again
    | Local(v: Move)                                          // a phase starts or returns

  function WorldOf(x: Site): World {
    World(x.v.store, x.at, x.eras, x.successes)
  }

  predicate InitSite(x: Site) {
    InitServer(x.v) && x == Site(x.v, map[], map[], {}, map[])
  }

  /** The position lets the session call PatchWithLease. */
  predicate Calls(session: Session, at: Position) {
    || (at.Outside? && session.state.Creating? && !session.overLimit)
    || at.Passed?
  }

  function EditAt(at: Position): LeaseEdit {
    if at.Passed? then (if at.phase < LAST_PHASE then NextPhase else ClearInstall) else InitInstall
  }

  predicate EditsRecord(w: Write) {
    w.PatchWithLease? && !w.edit.SetContent?
  }

  /** The action belongs to a PatchWithLease of an installer. */
  predicate IsPatch(x: Site, a: Action) {
    || (a.Begin? && EditsRecord(a.write))
    || ((a.Finish? || a.Drop?) && a.flight in x.patching.Values)
  }

  ghost predicate MayStep(m: Mode, x: Site, c: Step) {
    match c
    case Act(a) =>
      && Can(m, x.v, a) && !IsPatch(x, a)
      && forall y :: y in x.patching ==> y in Do(m, x.v, a).store.sessions
    case ReadPatch(y, f, id) =>
      && y in x.v.store.sessions && y !in x.patching
      && Calls(x.v.store.sessions[y], Where(WorldOf(x), y))
      && id in x.v.store.docs && x.v.store.docs[id].identity.key == x.v.store.sessions[y].key
      && Can(m, x.v, PatchBy(x, y, f, id))
    case SendPatch(y) => y in x.patching && y in x.v.store.sessions && Can(m, x.v, Finish(x.patching[y]))
    case DropPatch(y) => y in x.patching && Can(m, x.v, Drop(x.patching[y]))
    case Local(v) => (v.Start? || v.Return?) && v.session !in x.patching && May(m, WorldOf(x), v)
  }

  function PatchBy(x: Site, y: SessionId, f: nat, id: DocId): Action
    requires y in x.v.store.sessions
  {
    Begin(f, PatchWithLease(x.v.store.sessions[y].uuid, EditAt(Where(WorldOf(x), y))), id)
  }

  /** A new era begins when the stored Install goes from nil to non-nil, whoever writes it. */
  function ErasAfter(x: Site, t: State, id: DocId): map<DocId, nat> {
    if InstallOf(x.v.store, id).None? && InstallOf(t, id).Some?
    then x.eras[id := Era(WorldOf(x), id) + 1] else x.eras
  }

  /** Where a session is once its patch has stored `install`. */
  function Patched(at: Position, install: Option<int>, era: nat): Position {
    if EditAt(at).ClearInstall? then Complete(at.era)
    else Ready(if install.Some? then install.value else 0, era)
  }

  function Stepped(m: Mode, x: Site, c: Step): Site
    requires MayStep(m, x, c)
  {
    match c
    case Act(a) =>
      var u := Do(m, x.v, a);
      x.(v := u,
         at := map y | y in x.at && y in u.store.sessions && y in x.v.store.sessions :: x.at[y],
         eras := if a.Finish? then ErasAfter(x, u.store, x.v.flights[a.flight].id) else x.eras)
    case ReadPatch(y, f, id) => x.(v := Do(m, x.v, PatchBy(x, y, f, id)), patching := x.patching[y := f])
    case SendPatch(y) =>
      var id, u := x.v.flights[x.patching[y]].id, Do(m, x.v, Finish(x.patching[y]));
      var z := x.(v := u, eras := ErasAfter(x, u.store, id), patching := x.patching - {y});
      z.(at := x.at[y := Patched(Where(WorldOf(x), y), InstallOf(u.store, id), Era(WorldOf(z), id))])
    case DropPatch(y) => x.(v := Do(m, x.v, Drop(x.patching[y])), patching := x.patching - {y})
    case Local(v) => var w := Moved(m, WorldOf(x), v); x.(at := w.at, successes := w.successes)
  }

  ghost predicate IsInstallation(m: Mode, xs: seq<Site>, cs: seq<Step>) {
    && |xs| == |cs| + 1
    && InitSite(xs[0])
    && forall i :: 0 <= i < |cs| ==> MayStep(m, xs[i], cs[i]) && xs[i + 1] == Stepped(m, xs[i], cs[i])
  }

  // ---- the server underneath ----

  /** What the server does in a step. */
  function ActionOf(x: Site, c: Step): Action
    requires c.ReadPatch? ==> c.session in x.v.store.sessions
    requires c.SendPatch? || c.DropPatch? ==> c.session in x.patching
  {
    match c
    case Act(a) => a
    case ReadPatch(y, f, id) => PatchBy(x, y, f, id)
    case SendPatch(y) => Finish(x.patching[y])
    case DropPatch(y) => Drop(x.patching[y])
    case Local(_) => Direct(Tick(0))
  }

  /** Every step is an action of the concurrent protocol. */
  lemma StepIsAction(m: Mode, x: Site, c: Step)
    requires MayStep(m, x, c)
    ensures Can(m, x.v, ActionOf(x, c)) && Stepped(m, x, c).v == Do(m, x.v, ActionOf(x, c))
  {}

  // ---- calls under way ----

  ghost predicate CallInv(x: Site, y: SessionId)
    requires y in x.patching
  {
    && y in x.v.store.sessions && x.patching[y] in x.v.flights
    && var session, at, f := x.v.store.sessions[y], Where(WorldOf(x), y), x.v.flights[x.patching[y]];
      && Calls(session, at)
      && f.write == PatchWithLease(session.uuid, EditAt(at))
      && f.base.identity.key == session.key
  }

  ghost predicate CallsInv(x: Site) {
    && (forall y :: y in x.patching ==> CallInv(x, y))
    && (forall y, z :: y in x.patching && z in x.patching && y != z ==> x.patching[y] != x.patching[z])
    && (forall f :: f in x.v.flights && EditsRecord(x.v.flights[f].write) ==> f in x.patching.Values)
  }

  lemma SessionsStay(m: Mode, v: Server, a: Action, y: SessionId)
    requires Can(m, v, a)
    ensures SameSession(v.store, Do(m, v, a).store, y)
  {
    hide Edit, Enabled, After, Result;
    if a.Direct? {
      SessionEffect(m, v.store, a.event, y);
    }
  }

  lemma FlightsStay(m: Mode, v: Server, a: Action, f: nat)
    requires Can(m, v, a) && f in v.flights && !((a.Finish? || a.Drop?) && a.flight == f)
    ensures f in Do(m, v, a).flights && Do(m, v, a).flights[f] == v.flights[f]
  {
    hide Edit, ValidIdentity, Enabled, After, Guard;
  }

  lemma FlightsFrom(m: Mode, v: Server, a: Action, f: nat)
    requires Can(m, v, a) && f in Do(m, v, a).flights
    ensures (a.Begin? && a.flight == f) || (f in v.flights && Do(m, v, a).flights[f] == v.flights[f])
    ensures (a.Finish? || a.Drop?) ==> a.flight != f
  {
    hide Edit, ValidIdentity, Enabled, After, Guard;
  }

  lemma CallFrame(x: Site, z: Site, y: SessionId)
    requires y in x.patching && CallInv(x, y) && y in z.patching && z.patching[y] == x.patching[y]
    requires y in z.v.store.sessions && SameSession(x.v.store, z.v.store, y) && Where(WorldOf(z), y) == Where(WorldOf(x), y)
    requires z.patching[y] in z.v.flights && z.v.flights[z.patching[y]] == x.v.flights[x.patching[y]]
    ensures CallInv(z, y)
  {}

  lemma ActKeepsCalls(m: Mode, x: Site, c: Step)
    requires CallsInv(x) && MayStep(m, x, c) && c.Act?
    ensures CallsInv(Stepped(m, x, c))
  {
    hide Can, Do, CallInv;
    var z := Stepped(m, x, c);
    forall y | y in z.patching ensures CallInv(z, y) {
      CallIsLive(x, y);
      SessionsStay(m, x.v, c.a, y);
      FlightsStay(m, x.v, c.a, x.patching[y]);
      CallFrame(x, z, y);
    }
    forall f | f in z.v.flights && EditsRecord(z.v.flights[f].write) ensures f in z.patching.Values {
      FlightsFrom(m, x.v, c.a, f);
      BegunFlight(m, x.v, c.a);
    }
  }

  lemma CallIsLive(x: Site, y: SessionId)
    requires y in x.patching && CallInv(x, y)
    ensures y in x.v.store.sessions && x.patching[y] in x.v.flights
  {}

  lemma BegunFlight(m: Mode, v: Server, a: Action)
    requires Can(m, v, a)
    ensures a.Begin? ==>
      && a.flight !in v.flights && a.id in v.store.docs && Do(m, v, a).store == v.store && a.flight in Do(m, v, a).flights
      && Do(m, v, a).flights[a.flight].write == a.write && Do(m, v, a).flights[a.flight].base == v.store.docs[a.id]
  {}

  lemma ReadKeepsCalls(m: Mode, x: Site, c: Step)
    requires CallsInv(x) && MayStep(m, x, c) && c.ReadPatch?
    ensures CallsInv(Stepped(m, x, c))
  {
    hide Can, Do, CallInv;
    var z, a := Stepped(m, x, c), PatchBy(x, c.session, c.flight, c.id);
    BegunFlight(m, x.v, a);
    NewCall(z, c.session);
    forall y | y in z.patching && y != c.session ensures CallInv(z, y) && z.patching[y] != c.flight {
      CallIsLive(x, y);
      FlightsStay(m, x.v, a, x.patching[y]);
      CallFrame(x, z, y);
    }
    forall f | f in z.v.flights && EditsRecord(z.v.flights[f].write) ensures f in z.patching.Values {
      FlightsFrom(m, x.v, a, f);
      if f == c.flight {
        assert z.patching[c.session] == f;
      } else {
        var y :| y in x.patching && x.patching[y] == f;
        assert z.patching[y] == f;
      }
    }
  }

  lemma NewCall(z: Site, y: SessionId)
    requires y in z.patching && y in z.v.store.sessions && z.patching[y] in z.v.flights
    requires var session, at, f := z.v.store.sessions[y], Where(WorldOf(z), y), z.v.flights[z.patching[y]];
      Calls(session, at) && f.write == PatchWithLease(session.uuid, EditAt(at)) && f.base.identity.key == session.key
    ensures CallInv(z, y)
  {}

  /** The end of a call, accepted or not, does not touch the others. */
  lemma EndKeepsCalls(m: Mode, x: Site, c: Step)
    requires CallsInv(x) && MayStep(m, x, c) && (c.SendPatch? || c.DropPatch?)
    ensures CallsInv(Stepped(m, x, c))
  {
    hide Can, Do, CallInv;
    var z, a := Stepped(m, x, c), ActionOf(x, c);
    EndedFlight(m, x, c);
    forall y | y in z.patching ensures CallInv(z, y) {
      CallIsLive(x, y);
      SessionsStay(m, x.v, a, y);
      FlightsStay(m, x.v, a, x.patching[y]);
      CallFrame(x, z, y);
    }
    forall f | f in z.v.flights && EditsRecord(z.v.flights[f].write) ensures f in z.patching.Values {
      FlightsFrom(m, x.v, a, f);
      var y :| y in x.patching && x.patching[y] == f;
      assert z.patching[y] == f;
    }
  }

  lemma EndedFlight(m: Mode, x: Site, c: Step)
    requires CallsInv(x) && MayStep(m, x, c) && (c.SendPatch? || c.DropPatch?)
    ensures Do(m, x.v, ActionOf(x, c)).store.sessions == x.v.store.sessions
  {
    assert CallInv(x, c.session);
  }

  lemma LocalKeepsCalls(m: Mode, x: Site, c: Step)
    requires CallsInv(x) && MayStep(m, x, c) && c.Local?
    ensures CallsInv(Stepped(m, x, c))
  {
    hide CallInv;
    var z := Stepped(m, x, c);
    forall y | y in z.patching ensures CallInv(z, y) {
      CallIsLive(x, y);
      CallFrame(x, z, y);
    }
  }

  lemma StepKeepsCalls(m: Mode, x: Site, c: Step)
    requires CallsInv(x) && MayStep(m, x, c)
    ensures CallsInv(Stepped(m, x, c))
  {
    hide CallsInv, MayStep, Stepped;
    match c
    case Act(_) => ActKeepsCalls(m, x, c);
    case ReadPatch(_, _, _) => ReadKeepsCalls(m, x, c);
    case SendPatch(_) => EndKeepsCalls(m, x, c);
    case DropPatch(_) => EndKeepsCalls(m, x, c);
    case Local(_) => LocalKeepsCalls(m, x, c);
  }

  // ---- conditional writes make the calls atomic ----

  /** The move of `Installation` that a step amounts to. */
  function MoveOf(x: Site, c: Step): Move {
    match c
    case Act(a) => Other(Atomic(x.v, a))
    case SendPatch(y) =>
      var at := Where(WorldOf(x), y);
      if EditAt(at).InitInstall? then Enter(y) else if EditAt(at).NextPhase? then Advance(y) else Clear(y)
    case Local(v) => v
    case _ => Other(Tick(0))
  }

  ghost predicate SiteInv(x: Site) {
    ServerInv(x.v) && WorldInv(WorldOf(x)) && CallsInv(x)
  }

  lemma Stutters(m: Mode, w: World)
    requires forall y :: y in w.at ==> y in w.s.sessions
    ensures May(m, w, Other(Tick(0))) && Moved(m, w, Other(Tick(0))) == w
  {}

  lemma NotARecordEdit(m: Mode, x: Site, c: Step)
    requires CallsInv(x) && MayStep(m, x, c) && c.Act?
    ensures !EditsInstall(Atomic(x.v, c.a))
  {
    hide Enabled, CallInv, Guard, Edit;
  }

  lemma SameInstall(m: Mode, x: Site, e: Event, id: DocId)
    requires Enabled(m, x.v.store, e) && !EditsInstall(e) && DocsInv(x.v.store) && id in x.v.store.docs
    ensures ErasAfter(x, After(m, x.v.store, e), id) == x.eras
  {
    if id in After(m, x.v.store, e).docs {
      OthersKeepInstall(m, x.v.store, e, id);
    }
  }

  lemma ActRefines(m: Mode, x: Site, c: Step)
    requires m.conditional && SiteInv(x) && MayStep(m, x, c) && c.Act?
    ensures May(m, WorldOf(x), MoveOf(x, c)) && WorldOf(Stepped(m, x, c)) == Moved(m, WorldOf(x), MoveOf(x, c))
  {
    hide Can, Do, Enabled, After, DocInv, PlaceInv, KeysInv, HeldInv, FlightsInv, CallInv, ErasAfter;
    ActionRefines(m, x.v, c.a);
    NotARecordEdit(m, x, c);
    if c.a.Finish? {
      FinishedDocument(m, x.v, c.a.flight);
      SameInstall(m, x, Atomic(x.v, c.a), x.v.flights[c.a.flight].id);
    }
  }

  lemma FinishedDocument(m: Mode, v: Server, f: nat)
    requires Can(m, v, Finish(f))
    ensures f in v.flights && v.flights[f].id in v.store.docs && Edit(v.flights[f].write, v.flights[f].base).Edited?
  {}

  /** A write that is accepted under the lease of a session is on the session's own document. */
  lemma OwnDocument(s: State, session: Session, y: SessionId, id: DocId, edit: LeaseEdit)
    requires HeldInv(s) && y in s.sessions && s.sessions[y] == session && id in s.docs
    requires s.docs[id].identity.key == session.key && Edit(PatchWithLease(session.uuid, edit), s.docs[id]).Edited?
    ensures id == session.id
  {
    assert Matches(id, s.docs[id], session);
  }

  lemma CallIsCommit(m: Mode, x: Site, y: SessionId, f: Flight, session: Session)
    requires m.conditional && ServerInv(x.v) && HeldInv(x.v.store) && y in x.patching && x.patching[y] in x.v.flights
    requires f == x.v.flights[x.patching[y]] && y in x.v.store.sessions && session == x.v.store.sessions[y]
    requires CallInv(x, y) && Can(m, x.v, Finish(x.patching[y]))
    ensures f.id == session.id && f.id in x.v.store.docs && Edit(f.write, x.v.store.docs[f.id]).Edited?
    ensures Enabled(m, x.v.store, Commit(f.write, f.id))
    ensures Do(m, x.v, Finish(x.patching[y])).store == After(m, x.v.store, Commit(f.write, f.id))
  {
    hide Enabled, After, Do, HeldInv, ServerInv, Edit;
    FinishedDocument(m, x.v, x.patching[y]);
    IfMatchIsAtomic(m, x.v, x.patching[y]);
    OwnDocument(x.v.store, session, y, f.id, EditAt(Where(WorldOf(x), y)));
  }

  lemma SendRefines(m: Mode, x: Site, c: Step)
    requires m.conditional && SiteInv(x) && MayStep(m, x, c) && c.SendPatch?
    ensures May(m, WorldOf(x), MoveOf(x, c)) && WorldOf(Stepped(m, x, c)) == Moved(m, WorldOf(x), MoveOf(x, c))
  {
    hide DocInv, PlaceInv, KeysInv, HeldInv, FlightsInv, Do, Can, StoreInv, Enabled, After, Edit, CallInv;
    var y := c.session;
    assert CallInv(x, y);
    CallIsLive(x, y);
    var f, session := x.v.flights[x.patching[y]], x.v.store.sessions[y];
    CallIsCommit(m, x, y, f, session);
    CallWrites(x, y);
    EditedInstall(m, x.v.store, f.write, f.id);
    if Where(WorldOf(x), y).Passed? {
      PassedIsRecognised(WorldOf(x), y);
    }
  }

  lemma PassedIsRecognised(w: World, y: SessionId)
    requires WorldInv(w) && y in w.s.sessions && Where(w, y).Passed?
    ensures Recognised(Where(w, y).phase)
  {
    assert PlaceInv(w, w.s.sessions[y], Where(w, y));
  }

  lemma CallWrites(x: Site, y: SessionId)
    requires y in x.patching && y in x.v.store.sessions && x.patching[y] in x.v.flights && CallInv(x, y)
    ensures Calls(x.v.store.sessions[y], Where(WorldOf(x), y))
    ensures x.v.flights[x.patching[y]].write == PatchWithLease(x.v.store.sessions[y].uuid, EditAt(Where(WorldOf(x), y)))
  {}

  /** What an installer's edit leaves stored. */
  lemma EditedInstall(m: Mode, s: State, w: Write, id: DocId)
    requires Enabled(m, s, Commit(w, id)) && EditsRecord(w)
    ensures id in s.docs && id in After(m, s, Commit(w, id)).docs
    ensures After(m, s, Commit(w, id)).docs[id].install.Some? <==> !w.edit.ClearInstall?
    ensures w.edit.NextPhase? ==> s.docs[id].install.Some?
  {}

  /** With conditional writes, every step is a move of the installer whose calls are atomic. */
  lemma StepRefines(m: Mode, x: Site, c: Step)
    requires m.conditional && SiteInv(x) && MayStep(m, x, c)
    ensures May(m, WorldOf(x), MoveOf(x, c)) && WorldOf(Stepped(m, x, c)) == Moved(m, WorldOf(x), MoveOf(x, c))
  {
    match c
    case Act(_) => ActRefines(m, x, c);
    case SendPatch(_) => SendRefines(m, x, c);
    case Local(_) =>
    case _ =>
      ReadsAndDropsStutter(m, x, c);
  }

  lemma ReadsAndDropsStutter(m: Mode, x: Site, c: Step)
    requires SiteInv(x) && MayStep(m, x, c) && (c.ReadPatch? || c.DropPatch?)
    ensures May(m, WorldOf(x), MoveOf(x, c)) && WorldOf(Stepped(m, x, c)) == Moved(m, WorldOf(x), MoveOf(x, c))
  {
    hide DocInv, PlaceInv, KeysInv, HeldInv, FlightsInv, StoreInv, CallInv, May, Moved;
    Stutters(m, WorldOf(x));
  }

  lemma StepKeepsServer(m: Mode, x: Site, c: Step)
    requires ServerInv(x.v) && MayStep(m, x, c)
    ensures ServerInv(Stepped(m, x, c).v)
  {
    hide ServerInv, Can, Do, Stepped;
    StepIsAction(m, x, c);
    ActionKeepsServer(m, x.v, ActionOf(x, c));
  }

  lemma StepKeepsSite(m: Mode, x: Site, c: Step)
    requires m.conditional && m.oneSession && SiteInv(x) && MayStep(m, x, c)
    ensures SiteInv(Stepped(m, x, c))
  {
    hide ServerInv, WorldInv, CallsInv, MayStep, Stepped, May, Moved;
    StepKeepsServer(m, x, c);
    StepKeepsCalls(m, x, c);
    StepRefines(m, x, c);
    MoveKeepsWorld(m, WorldOf(x), MoveOf(x, c));
  }

  lemma {:induction false} InstallationKeepsSite(m: Mode, xs: seq<Site>, cs: seq<Step>, n: nat)
    requires m.conditional && m.oneSession && IsInstallation(m, xs, cs) && n < |xs|
    ensures SiteInv(xs[n])
  {
    hide SiteInv, MayStep, Stepped, InitSite;
    if n == 0 {
      InitSiteInv(xs[0]);
    } else {
      InstallationKeepsSite(m, xs, cs, n - 1);
      StepKeepsSite(m, xs[n - 1], cs[n - 1]);
    }
  }

  lemma InitSiteInv(x: Site)
    requires InitSite(x)
    ensures SiteInv(x)
  {
    InitStore(x.v.store);
    InitWorldInv(WorldOf(x));
  }

  function Worlds(xs: seq<Site>): (ws: seq<World>)
    ensures |ws| == |xs| && forall i :: 0 <= i < |xs| ==> ws[i] == WorldOf(xs[i])
  {
    seq(|xs|, i requires 0 <= i < |xs| => WorldOf(xs[i]))
  }

  function Moves(xs: seq<Site>, cs: seq<Step>): (vs: seq<Move>)
    requires |xs| == |cs| + 1
    ensures |vs| == |cs| && forall i :: 0 <= i < |cs| ==> vs[i] == MoveOf(xs[i], cs[i])
  {
    seq(|cs|, i requires 0 <= i < |cs| => MoveOf(xs[i], cs[i]))
  }

  /** With conditional writes, every interleaved run of the installer is a history of the one with atomic calls. */
  lemma InstallationsAreHistories(m: Mode, xs: seq<Site>, cs: seq<Step>)
    requires m.conditional && m.oneSession && IsInstallation(m, xs, cs)
    ensures IsHistory(m, Worlds(xs), Moves(xs, cs))
  {
    hide SiteInv, MayStep, Stepped, May, Moved;
    var ws, vs := Worlds(xs), Moves(xs, cs);
    forall i | 0 <= i < |vs| ensures May(m, ws[i], vs[i]) && ws[i + 1] == Moved(m, ws[i], vs[i]) {
      InstallationKeepsSite(m, xs, cs, i);
      StepRefines(m, xs[i], cs[i]);
    }
  }

  // ---- the theorems ----

  /** Phase `q` returned success in step `k`, and Install has not been nil between then and state `n`. */
  ghost predicate ReturnedSince(xs: seq<Site>, cs: seq<Step>, k: nat, n: nat, id: DocId, q: int)
    requires |xs| == |cs| + 1 && n < |xs|
  {
    && k < n && cs[k].Local? && Returns(WorldOf(xs[k]), cs[k].v, id, q)
    && forall l :: k <= l <= n ==> InstallOf(xs[l].v.store, id).Some?
  }

  ghost predicate HasReturned(xs: seq<Site>, cs: seq<Step>, n: nat, id: DocId, q: int)
    requires |xs| == |cs| + 1 && n < |xs|
  {
    exists k: nat :: ReturnedSince(xs, cs, k, n, id, q)
  }

  lemma ReturnIsLocal(xs: seq<Site>, cs: seq<Step>, n: nat, id: DocId, q: int)
    requires |xs| == |cs| + 1 && n < |xs| && Installation.HasRun(Worlds(xs), Moves(xs, cs), n, id, q)
    ensures HasReturned(xs, cs, n, id, q)
  {
    var ws, vs := Worlds(xs), Moves(xs, cs);
    var k: nat :| Installation.RanSince(ws, vs, k, n, id, q);
    forall l | k <= l <= n ensures InstallOf(xs[l].v.store, id).Some? {
      assert InstallOf(ws[l].s, id).Some?;
    }
    assert ReturnedSince(xs, cs, k, n, id, q);
  }

  /** Session `y` is about to start a phase. */
  predicate AboutToStart(x: Site, y: SessionId) {
    y in x.v.store.sessions && Where(WorldOf(x), y).Ready?
  }

  predicate Leased(x: Site, y: SessionId) {
    y in x.v.store.sessions && HoldsLease(x.v.store, x.v.store.sessions[y])
  }

  /** Install is not nil, and since it last was, all phases before the one that `y` is about to start returned success. */
  ghost predicate InOrder(xs: seq<Site>, cs: seq<Step>, n: nat, y: SessionId)
    requires |xs| == |cs| + 1 && n < |xs| && AboutToStart(xs[n], y)
  {
    var id := xs[n].v.store.sessions[y].id;
    && InstallOf(xs[n].v.store, id).Some?
    && forall q :: 0 <= q < Where(WorldOf(xs[n]), y).phase ==> HasReturned(xs, cs, n, id, q)
  }

  /** In conditional mode, a lease holder starts phases in order, across crashes, takeovers and interleavings. */
  lemma LeasedStartsInOrder(m: Mode, xs: seq<Site>, cs: seq<Step>, n: nat, y: SessionId)
    requires m.conditional && m.oneSession && IsInstallation(m, xs, cs) && n < |xs|
    requires AboutToStart(xs[n], y) && Leased(xs[n], y)
    ensures InOrder(xs, cs, n, y)
  {
    hide MayStep, Stepped, IsHistory, HasReturned, Installation.HasRun;
    InstallationsAreHistories(m, xs, cs);
    PhasesRunInOrder(m, Worlds(xs), Moves(xs, cs), n, y);
    var id := xs[n].v.store.sessions[y].id;
    forall q | 0 <= q < Where(WorldOf(xs[n]), y).phase ensures HasReturned(xs, cs, n, id, q) {
      ReturnIsLocal(xs, cs, n, id, q);
    }
  }

  /** Step `c` stores the nil Install with which Install returns success. */
  predicate Completes(x: Site, c: Step) {
    c.SendPatch? && c.session in x.v.store.sessions && MoveOf(x, c).Clear?
  }

  /** All three phases have returned success since Install was last nil. */
  ghost predicate AllReturned(xs: seq<Site>, cs: seq<Step>, n: nat, y: SessionId)
    requires |xs| == |cs| + 1 && n < |xs| && y in xs[n].v.store.sessions
  {
    forall q :: Recognised(q) ==> HasReturned(xs, cs, n, xs[n].v.store.sessions[y].id, q)
  }

  lemma SuccessMeansAllPhases(m: Mode, xs: seq<Site>, cs: seq<Step>, n: nat)
    requires m.conditional && m.oneSession && IsInstallation(m, xs, cs) && n < |cs| && Completes(xs[n], cs[n])
    ensures AllReturned(xs, cs, n, cs[n].session)
  {
    hide MayStep, Stepped, IsHistory, HasReturned, Installation.HasRun;
    InstallationsAreHistories(m, xs, cs);
    var id := xs[n].v.store.sessions[cs[n].session].id;
    forall q | Recognised(q) ensures HasReturned(xs, cs, n, id, q) {
      Installation.SuccessMeansAllPhases(m, Worlds(xs), Moves(xs, cs), n, q);
      ReturnIsLocal(xs, cs, n, id, q);
    }
  }

  /** In conditional mode, no worker meets an unrecognised phase, and none dereferences a nil Install under its lease. */
  lemma NoUnrecognisedPhase(m: Mode, xs: seq<Site>, cs: seq<Step>, n: nat, y: SessionId)
    requires m.conditional && m.oneSession && IsInstallation(m, xs, cs) && n < |xs| && y in xs[n].v.store.sessions
    ensures Where(WorldOf(xs[n]), y).Ready? ==> Recognised(Where(WorldOf(xs[n]), y).phase)
    ensures var session := xs[n].v.store.sessions[y];
      Where(WorldOf(xs[n]), y).Passed? && session.id in xs[n].v.store.docs ==>
        !Edit(PatchWithLease(session.uuid, NextPhase), xs[n].v.store.docs[session.id]).NilDereference?
  {
    hide MayStep, Stepped, IsHistory, Edit;
    InstallationsAreHistories(m, xs, cs);
    Installation.NoUnrecognisedPhase(m, Worlds(xs), Moves(xs, cs), n, y);
  }
}
