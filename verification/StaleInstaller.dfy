/**
 Runs that show what the order of install phases depends on: a worker that has lost
 its lease may start a phase of an install that is over, and with nil options even a
 lease holder may start, and complete, an install whose first phase was not run.
 */
module StaleInstaller {
  import opened Wrappers
  import opened Documents
  import opened Protocol
  import opened StoreInvariants
  import opened Concurrency
  import opened Installation
  import opened InstallerInterleaving
  import opened SampleCluster
  import X = Counterexamples

  // ---- building runs ----

  /** A run leads to `x`; if `lacks`, phase 0 of document 0 has not returned success since Install was last nil. */
  ghost predicate Path(m: Mode, x: Site, lacks: bool) {
    exists xs, cs :: Leads(m, xs, cs, x, lacks)
  }

  ghost predicate Leads(m: Mode, xs: seq<Site>, cs: seq<Step>, x: Site, lacks: bool) {
    IsInstallation(m, xs, cs) && xs[|cs|] == x && (lacks ==> !HasReturned(xs, cs, |cs|, 0, 0))
  }

  lemma Longer(m: Mode, xs: seq<Site>, cs: seq<Step>, c: Step)
    requires IsInstallation(m, xs, cs) && MayStep(m, xs[|cs|], c)
    ensures IsInstallation(m, xs + [Stepped(m, xs[|cs|], c)], cs + [c])
  {
    hide MayStep, Stepped;
    var ys, ds := xs + [Stepped(m, xs[|cs|], c)], cs + [c];
    forall i | 0 <= i < |ds| ensures MayStep(m, ys[i], ds[i]) && ys[i + 1] == Stepped(m, ys[i], ds[i]) {
      if i < |cs| {
        assert ys[i] == xs[i] && ys[i + 1] == xs[i + 1] && ds[i] == cs[i];
      }
    }
  }

  /** What had not returned has not returned, if the step is not its return. */
  lemma StillLacks(xs: seq<Site>, cs: seq<Step>, z: Site, c: Step)
    requires |xs| == |cs| + 1 && !HasReturned(xs, cs, |cs|, 0, 0)
    ensures !HasReturned(xs + [z], cs + [c], |cs|, 0, 0)
    ensures !(c.Local? && Returns(WorldOf(xs[|cs|]), c.v, 0, 0)) ==> !HasReturned(xs + [z], cs + [c], |cs| + 1, 0, 0)
  {
    var ys, ds, n, next := xs + [z], cs + [c], |cs|, |cs| + 1;
    forall k: nat | ReturnedSince(ys, ds, k, n, 0, 0) ensures false {
      Shorter(xs, cs, z, c, k);
    }
    forall k: nat | ReturnedSince(ys, ds, k, next, 0, 0)
      ensures k == n && c.Local? && Returns(WorldOf(xs[n]), c.v, 0, 0)
    {
      if k < n {
        assert forall l :: k <= l <= n ==> InstallOf(ys[l].v.store, 0).Some?;
        assert ReturnedSince(ys, ds, k, n, 0, 0);
        Shorter(xs, cs, z, c, k);
      }
    }
  }

  lemma Shorter(xs: seq<Site>, cs: seq<Step>, z: Site, c: Step, k: nat)
    requires |xs| == |cs| + 1 && ReturnedSince(xs + [z], cs + [c], k, |cs|, 0, 0)
    ensures ReturnedSince(xs, cs, k, |cs|, 0, 0)
  {
    forall l | k <= l <= |cs| ensures InstallOf(xs[l].v.store, 0).Some? {
      assert InstallOf((xs + [z])[l].v.store, 0).Some?;
    }
  }

  lemma PathMore(m: Mode, x: Site, c: Step, lacks: bool)
    requires Path(m, x, lacks) && MayStep(m, x, c) && (lacks ==> !(c.Local? && Returns(WorldOf(x), c.v, 0, 0)))
    ensures Path(m, Stepped(m, x, c), lacks)
  {
    hide MayStep, Stepped, HasReturned;
    var xs, cs :| Leads(m, xs, cs, x, lacks);
    Longer(m, xs, cs, c);
    if lacks {
      StillLacks(xs, cs, Stepped(m, x, c), c);
    }
    assert Leads(m, xs + [Stepped(m, x, c)], cs + [c], Stepped(m, x, c), lacks);
  }

  /** While Install is nil, nothing has returned since it last was. */
  lemma PathNil(m: Mode, x: Site)
    requires Path(m, x, false) && InstallOf(x.v.store, 0).None?
    ensures Path(m, x, true)
  {
    hide MayStep, Stepped;
    var xs: seq<Site>, cs: seq<Step> :| Leads(m, xs, cs, x, false);
    forall k: nat | k < |cs| ensures !ReturnedSince(xs, cs, k, |cs|, 0, 0) {
      assert InstallOf(xs[|cs|].v.store, 0).None?;
    }
    assert Leads(m, xs, cs, x, true);
  }

  lemma {:induction false} InstallationKeepsServer(m: Mode, xs: seq<Site>, cs: seq<Step>, n: nat)
    requires IsInstallation(m, xs, cs) && n < |xs|
    ensures ServerInv(xs[n].v)
  {
    hide MayStep, Stepped, ServerInv;
    if n == 0 {
      InitServerInv(xs[0].v);
    } else {
      InstallationKeepsServer(m, xs, cs, n - 1);
      StepKeepsServer(m, xs[n - 1], cs[n - 1]);
    }
  }

  lemma InitServerInv(v: Server)
    requires InitServer(v)
    ensures ServerInv(v)
  {
    InitStore(v.store);
  }

  lemma PathServer(m: Mode, x: Site, lacks: bool)
    requires Path(m, x, lacks)
    ensures ServerInv(x.v)
  {
    hide ServerInv, MayStep, Stepped, HasReturned;
    var xs, cs :| Leads(m, xs, cs, x, lacks);
    InstallationKeepsServer(m, xs, cs, |cs|);
  }

  // ---- moves of the installer with atomic calls, among calls under way ----

  /** Flight number 1 is free, and only sessions have positions and calls. */
  predicate Free(x: Site) {
    && 1 !in x.v.flights && 1 !in x.patching.Values
    && x.at.Keys <= x.v.store.sessions.Keys && x.patching.Keys <= x.v.store.sessions.Keys
  }

  /** The move does not concern a session whose call is under way, nor end one. */
  ghost predicate Apart(m: Mode, x: Site, v: Move)
    requires May(m, WorldOf(x), v)
  {
    if v.Other? then forall y :: y in x.patching ==> y in After(m, x.v.store, v.event).sessions
    else v.session !in x.patching
  }

  ghost predicate Became(x: Site, z: Site, w: World) {
    WorldOf(z) == w && z.v.flights == x.v.flights && z.patching == x.patching
  }

  lemma EmbedDirect(m: Mode, x: Site, v: Move, lacks: bool) returns (z: Site)
    requires Path(m, x, lacks) && Free(x) && v.Other? && !v.event.Commit?
    requires May(m, WorldOf(x), v) && Apart(m, x, v)
    ensures Path(m, z, lacks) && Became(x, z, Moved(m, WorldOf(x), v))
  {
    hide Path, Enabled, After;
    PathMore(m, x, Act(Direct(v.event)), lacks);
    z := Stepped(m, x, Act(Direct(v.event)));
  }

  lemma EmbedLocal(m: Mode, x: Site, v: Move, lacks: bool) returns (z: Site)
    requires Path(m, x, lacks) && Free(x) && (v.Start? || v.Return?)
    requires May(m, WorldOf(x), v) && Apart(m, x, v) && (lacks ==> !Returns(WorldOf(x), v, 0, 0))
    ensures Path(m, z, lacks) && Became(x, z, Moved(m, WorldOf(x), v))
  {
    hide Path;
    PathMore(m, x, Local(v), lacks);
    z := Stepped(m, x, Local(v));
  }

  lemma EmbedCommit(m: Mode, x: Site, v: Move, lacks: bool) returns (z: Site)
    requires Path(m, x, lacks) && Free(x) && v.Other? && v.event.Commit?
    requires May(m, WorldOf(x), v) && Apart(m, x, v)
    ensures Path(m, z, lacks) && Became(x, z, Moved(m, WorldOf(x), v))
  {
    hide Path, Can, Do, Enabled, After, ErasAfter, KeysInv, FlightsInv, GoodDocument, SessionsInv, AsyncsInv;
    PathServer(m, x, lacks);
    var e := v.event;
    WriteAtOnce(m, x.v, 1, e.write, e.id);
    var c := Act(Begin(1, e.write, e.id));
    PathMore(m, x, c, lacks);
    var u := Stepped(m, x, c);
    PathMore(m, u, Act(Finish(1)), lacks);
    z := Stepped(m, u, Act(Finish(1)));
    SameInstall(m, u, e, e.id);
  }

  lemma EmbedPatch(m: Mode, x: Site, v: Move, lacks: bool) returns (z: Site)
    requires Path(m, x, lacks) && Free(x) && Patches(v)
    requires May(m, WorldOf(x), v) && Apart(m, x, v)
    requires var session := x.v.store.sessions[v.session];
      session.id in x.v.store.docs && x.v.store.docs[session.id].identity.key == session.key
    ensures Path(m, z, lacks) && Became(x, z, Moved(m, WorldOf(x), v))
  {
    hide Path, Can, Do, Enabled, After, ServerInv, Edit;
    PathServer(m, x, lacks);
    var y, e := v.session, PatchOf(WorldOf(x), v);
    WriteAtOnce(m, x.v, 1, e.write, e.id);
    EditedInstall(m, x.v.store, e.write, e.id);
    var c := ReadPatch(y, 1, e.id);
    PathMore(m, x, c, lacks);
    var u := Stepped(m, x, c);
    PathMore(m, u, SendPatch(y), lacks);
    z := Stepped(m, u, SendPatch(y));
    assert u.patching - {y} == x.patching;
  }

  /** World `w` can be reached with these writes in flight, of which `pa` are calls of installers. */
  ghost predicate Reached(m: Mode, w: World, fl: map<nat, Flight>, pa: map<SessionId, nat>, lacks: bool) {
    exists x :: IsAt(m, x, w, fl, pa, lacks)
  }

  ghost predicate IsAt(m: Mode, x: Site, w: World, fl: map<nat, Flight>, pa: map<SessionId, nat>, lacks: bool) {
    Path(m, x, lacks) && Free(x) && WorldOf(x) == w && x.v.flights == fl && x.patching == pa
  }

  /** The move can be made while the calls `pa` are under way. */
  ghost predicate Aside(m: Mode, w: World, v: Move, pa: map<SessionId, nat>, lacks: bool)
    requires May(m, w, v)
  {
    && (v.Other? ==> forall y :: y in pa ==> y in After(m, w.s, v.event).sessions)
    && (!v.Other? ==> v.session !in pa)
    && (lacks && v.Return? ==> !Returns(w, v, 0, 0))
    && (Patches(v) ==>
          var session := w.s.sessions[v.session];
          session.id in w.s.docs && w.s.docs[session.id].identity.key == session.key)
  }

  lemma MoveStaysFree(m: Mode, w: World, v: Move, pa: map<SessionId, nat>, lacks: bool)
    requires May(m, w, v) && Aside(m, w, v, pa, lacks) && w.at.Keys <= w.s.sessions.Keys && pa.Keys <= w.s.sessions.Keys
    ensures Moved(m, w, v).at.Keys <= Moved(m, w, v).s.sessions.Keys && pa.Keys <= Moved(m, w, v).s.sessions.Keys
  {
    hide Enabled, Edit;
  }

  lemma ReachMore(m: Mode, w: World, v: Move, fl: map<nat, Flight>, pa: map<SessionId, nat>, lacks: bool)
    requires Reached(m, w, fl, pa, lacks) && May(m, w, v) && Aside(m, w, v, pa, lacks)
    ensures Reached(m, Moved(m, w, v), fl, pa, lacks)
  {
    hide Path, May, Moved, After;
    var x :| IsAt(m, x, w, fl, pa, lacks);
    MoveStaysFree(m, w, v, pa, lacks);
    var z;
    if Patches(v) {
      z := EmbedPatch(m, x, v, lacks);
    } else if !v.Other? {
      z := EmbedLocal(m, x, v, lacks);
    } else if v.event.Commit? {
      z := EmbedCommit(m, x, v, lacks);
    } else {
      z := EmbedDirect(m, x, v, lacks);
    }
    assert IsAt(m, z, Moved(m, w, v), fl, pa, lacks);
  }

  // ---- a worker overtaken between two phases ----

  const FIRST := Session(1, 0, KEY, Creating, Some(0), false, None)
  const SECOND := Session(2, 0, KEY, Creating, Some(0), false, None)

  /** The document as worker 1 or worker 2 has dequeued it. */
  function Doc(owner: Uuid, install: Option<int>): Document {
    var d := if owner == 2 then X.Cluster(Some(2), 122, 2, Some(0), Creating) else X.Cluster(Some(1), 61, 1, Some(0), Creating);
    d.(install := install)
  }

  /** Worker 1 is in session 10 and, once it is overtaken, worker 2 in session 11. */
  function Stage(overtaken: bool, owner: Uuid, install: Option<int>, at: map<SessionId, Position>, eras: map<DocId, nat>, successes: set<Success>): World {
    World(State(if overtaken then 62_000 else 1000,
                map[0 := Doc(owner, install)],
                map[0 := X.Operation(Creating, Creating)],
                if overtaken then map[10 := FIRST, 11 := SECOND] else map[10 := FIRST],
                {0}, {0}, map[]),
          at, eras, successes)
  }

  function SessionOf(owner: Uuid): SessionId { if owner == 2 then 11 else 10 }

  function Announced(): World {
    World(State(1000, map[], map[0 := X.Operation(Creating, Creating)], map[], {}, {}, map[]), map[], map[], {})
  }

  lemma IsAnnounced(m: Mode)
    ensures Reached(m, Announced(), map[], map[], false)
  {
    hide ValidIdentity, Reached;
    Nothing(m);
    var x0 := World(State(0, map[], map[], map[], {}, {}, map[]), map[], map[], {});
    var v1, v2 := Other(Tick(1000)), Other(NewAsync(0, KEY, Creating));
    ReachMore(m, x0, v1, map[], map[], false);
    var x1 := x0.(s := x0.s.(now := 1000));
    assert Moved(m, x0, v1) == x1;
    ReachMore(m, x1, v2, map[], map[], false);
    assert Moved(m, x1, v2) == Announced();
  }

  lemma Begun(m: Mode)
    ensures Reached(m, World(X.CreatedState(), map[], map[], {}), map[], map[], false)
  {
    hide ValidIdentity, Reached;
    IsAnnounced(m);
    var v := Other(Create(0, IDENTITY, RESOURCE_GROUP, 0, 0));
    assert ValidIdentity(IDENTITY, RESOURCE_GROUP);
    ReachMore(m, Announced(), v, map[], map[], false);
    assert Moved(m, Announced(), v) == World(X.CreatedState(), map[], map[], {});
  }

  lemma Nothing(m: Mode)
    ensures Reached(m, World(State(0, map[], map[], map[], {}, {}, map[]), map[], map[], {}), map[], map[], false)
  {
    var x := Site(Server(State(0, map[], map[], map[], {}, {}, map[]), map[], 0, map[]), map[], map[], {}, map[]);
    assert IsInstallation(m, [x], []) && [x][0] == x;
    assert Leads(m, [x], [], x, false);
    assert IsAt(m, x, WorldOf(x), map[], map[], false);
  }

  lemma FirstDequeue(m: Mode)
    ensures Reached(m, Stage(false, 1, None, map[], map[], {}), map[], map[], false)
  {
    hide ValidIdentity, Reached;
    Begun(m);
    var x, v := World(X.CreatedState(), map[], map[], {}), Other(Commit(Dequeue(1, 10), 0));
    ReachMore(m, x, v, map[], map[], false);
    assert Moved(m, x, v) == Stage(false, 1, None, map[], map[], {});
  }

  /** The lease holder enters Install. */
  lemma Entered(m: Mode, overtaken: bool, owner: Uuid, install: Option<int>, at: map<SessionId, Position>, successes: set<Success>,
                fl: map<nat, Flight>, pa: map<SessionId, nat>)
    requires owner == (if overtaken then 2 else 1) && SessionOf(owner) !in at && pa.Keys <= {10} && (!overtaken ==> pa == map[])
    requires Reached(m, Stage(overtaken, owner, install, at, if install.None? then map[] else map[0 := 1], successes), fl, pa, false)
    ensures var phase := if install.None? then 0 else install.value;
      Reached(m, Stage(overtaken, owner, Some(phase), at[SessionOf(owner) := Ready(phase, 1)], map[0 := 1], successes), fl, pa, false)
  {
    hide ValidIdentity, Reached;
    var y, phase := SessionOf(owner), if install.None? then 0 else install.value;
    var x := Stage(overtaken, owner, install, at, if install.None? then map[] else map[0 := 1], successes);
    assert May(m, x, Enter(y));
    ReachMore(m, x, Enter(y), fl, pa, false);
    assert Moved(m, x, Enter(y)) == Stage(overtaken, owner, Some(phase), at[y := Ready(phase, 1)], map[0 := 1], successes);
  }

  /** The lease holder runs a phase, which returns success. */
  lemma Ran(m: Mode, overtaken: bool, owner: Uuid, phase: int, era: nat, at: map<SessionId, Position>, successes: set<Success>,
            fl: map<nat, Flight>, pa: map<SessionId, nat>, lacks: bool)
    requires (owner == 1 || (owner == 2 && overtaken)) && Recognised(phase) && (lacks ==> phase != 0)
    requires SessionOf(owner) in at && at[SessionOf(owner)] == Ready(phase, era) && SessionOf(owner) !in pa
    requires Reached(m, Stage(overtaken, owner, Some(phase), at, map[0 := era], successes), fl, pa, lacks)
    ensures Reached(m, Stage(overtaken, owner, Some(phase), at[SessionOf(owner) := Passed(phase, era)], map[0 := era],
                             successes + {Success(0, era, phase)}), fl, pa, lacks)
  {
    hide ValidIdentity, Reached;
    var y := SessionOf(owner);
    var x := Stage(overtaken, owner, Some(phase), at, map[0 := era], successes);
    ReachMore(m, x, Start(y), fl, pa, lacks);
    var x1 := Stage(overtaken, owner, Some(phase), at[y := Running(phase, era)], map[0 := era], successes);
    assert Moved(m, x, Start(y)) == x1;
    ReachMore(m, x1, Return(y, true), fl, pa, lacks);
    assert Moved(m, x1, Return(y, true)) == Stage(overtaken, owner, Some(phase), at[y := Passed(phase, era)], map[0 := era],
                                                  successes + {Success(0, era, phase)});
  }

  /** The lease holder stores the next phase. */
  lemma Stored(m: Mode, overtaken: bool, owner: Uuid, phase: int, era: nat, at: map<SessionId, Position>, successes: set<Success>,
               fl: map<nat, Flight>, pa: map<SessionId, nat>, lacks: bool)
    requires (owner == 1 || (owner == 2 && overtaken)) && 0 <= phase < LAST_PHASE
    requires SessionOf(owner) in at && at[SessionOf(owner)] == Passed(phase, era) && SessionOf(owner) !in pa
    requires Reached(m, Stage(overtaken, owner, Some(phase), at, map[0 := era], successes), fl, pa, lacks)
    ensures Reached(m, Stage(overtaken, owner, Some(phase + 1), at[SessionOf(owner) := Ready(phase + 1, era)], map[0 := era], successes), fl, pa, lacks)
  {
    hide ValidIdentity, Reached;
    var y, v := SessionOf(owner), Advance(SessionOf(owner));
    var x := Stage(overtaken, owner, Some(phase), at, map[0 := era], successes);
    assert May(m, x, v);
    ReachMore(m, x, v, fl, pa, lacks);
    assert Moved(m, x, v) == Stage(overtaken, owner, Some(phase + 1), at[SessionOf(owner) := Ready(phase + 1, era)], map[0 := era], successes);
  }

  /** After the last phase, the lease holder clears the record. */
  lemma Cleared(m: Mode, overtaken: bool, owner: Uuid, phase: int, era: nat, at: map<SessionId, Position>, successes: set<Success>,
               fl: map<nat, Flight>, pa: map<SessionId, nat>, lacks: bool)
    requires (owner == 1 || (owner == 2 && overtaken)) && phase == LAST_PHASE
    requires SessionOf(owner) in at && at[SessionOf(owner)] == Passed(phase, era) && SessionOf(owner) !in pa
    requires Reached(m, Stage(overtaken, owner, Some(phase), at, map[0 := era], successes), fl, pa, lacks)
    ensures Reached(m, Stage(overtaken, owner, None, at[SessionOf(owner) := Complete(era)], map[0 := era], successes), fl, pa, lacks)
  {
    hide ValidIdentity, Reached;
    var y, v := SessionOf(owner), Clear(SessionOf(owner));
    var x := Stage(overtaken, owner, Some(phase), at, map[0 := era], successes);
    assert May(m, x, v);
    ReachMore(m, x, v, fl, pa, lacks);
    assert Moved(m, x, v) == Stage(overtaken, owner, None, at[SessionOf(owner) := Complete(era)], map[0 := era], successes);
  }

  /** 61 seconds later, worker 2 takes over. */
  lemma Overtaken(m: Mode, phase: int, at: map<SessionId, Position>, successes: set<Success>, fl: map<nat, Flight>, pa: map<SessionId, nat>)
    requires at.Keys == {10} && pa.Keys <= {10}
    requires Reached(m, Stage(false, 1, Some(phase), at, map[0 := 1], successes), fl, pa, false)
    ensures Reached(m, Stage(true, 2, Some(phase), at, map[0 := 1], successes), fl, pa, false)
  {
    hide ValidIdentity, Reached;
    Waited(m, phase, at, successes, fl, pa);
    var w := Stage(false, 1, Some(phase), at, map[0 := 1], successes);
    var x, v := w.(s := w.s.(now := 62_000)), Other(Commit(Dequeue(2, 11), 0));
    ReachMore(m, x, v, fl, pa, false);
    assert Moved(m, x, v) == Stage(true, 2, Some(phase), at, map[0 := 1], successes);
  }

  lemma Waited(m: Mode, phase: int, at: map<SessionId, Position>, successes: set<Success>, fl: map<nat, Flight>, pa: map<SessionId, nat>)
    requires at.Keys == {10} && pa.Keys <= {10}
    requires Reached(m, Stage(false, 1, Some(phase), at, map[0 := 1], successes), fl, pa, false)
    ensures var w := Stage(false, 1, Some(phase), at, map[0 := 1], successes);
      Reached(m, w.(s := w.s.(now := 62_000)), fl, pa, false)
  {
    hide ValidIdentity, Reached;
    var w, v := Stage(false, 1, Some(phase), at, map[0 := 1], successes), Other(Tick(61_000));
    ReachMore(m, w, v, fl, pa, false);
    assert Moved(m, w, v) == w.(s := w.s.(now := 62_000));
  }

  /** Worker 2 completes the phases from `phase` on and clears the record. */
  lemma {:induction false} CompletedBySecond(m: Mode, phase: int, at: map<SessionId, Position>, successes: set<Success>,
                                             fl: map<nat, Flight>, pa: map<SessionId, nat>) returns (done: set<Success>)
    requires Recognised(phase) && 11 in at && at[11] == Ready(phase, 1) && 11 !in pa
    requires Reached(m, Stage(true, 2, Some(phase), at, map[0 := 1], successes), fl, pa, false)
    ensures Reached(m, Stage(true, 2, None, at[11 := Complete(1)], map[0 := 1], done), fl, pa, false)
    decreases LAST_PHASE - phase
  {
    hide Reached, Stage;
    Ran(m, true, 2, phase, 1, at, successes, fl, pa, false);
    var more := successes + {Success(0, 1, phase)};
    if phase < LAST_PHASE {
      Stored(m, true, 2, phase, 1, at[11 := Passed(phase, 1)], more, fl, pa, false);
      var next := at[11 := Passed(phase, 1)][11 := Ready(phase + 1, 1)];
      done := CompletedBySecond(m, phase + 1, next, more, fl, pa);
      assert next[11 := Complete(1)] == at[11 := Complete(1)];
    } else {
      Cleared(m, true, 2, phase, 1, at[11 := Passed(phase, 1)], more, fl, pa, false);
      done := more;
      assert at[11 := Passed(phase, 1)][11 := Complete(1)] == at[11 := Complete(1)];
    }
  }

  /** Worker 1 has run phase 0. */
  lemma FirstPhaseRan(m: Mode)
    ensures Reached(m, Stage(false, 1, Some(0), map[10 := Passed(0, 1)], map[0 := 1], {Success(0, 1, 0)}), map[], map[], false)
  {
    hide Reached, Stage;
    FirstDequeue(m);
    Entered(m, false, 1, None, map[], {}, map[], map[]);
    assert map[][10 := Ready(0, 1)] == map[10 := Ready(0, 1)];
    Ran(m, false, 1, 0, 1, map[10 := Ready(0, 1)], {}, map[], map[], false);
    assert map[10 := Ready(0, 1)][10 := Passed(0, 1)] == map[10 := Passed(0, 1)] && {} + {Success(0, 1, 0)} == {Success(0, 1, 0)};
  }

  /** Worker 1 stops after storing phase 1; worker 2 takes over and completes the install. */
  lemma StaleStart(m: Mode) returns (done: set<Success>)
    ensures Reached(m, Stage(true, 2, None, map[10 := Ready(1, 1), 11 := Complete(1)], map[0 := 1], done), map[], map[], false)
  {
    hide Reached, Stage;
    FirstPhaseRan(m);
    Stored(m, false, 1, 0, 1, map[10 := Passed(0, 1)], {Success(0, 1, 0)}, map[], map[], false);
    assert map[10 := Passed(0, 1)][10 := Ready(1, 1)] == map[10 := Ready(1, 1)];
    Overtaken(m, 1, map[10 := Ready(1, 1)], {Success(0, 1, 0)}, map[], map[]);
    Entered(m, true, 2, Some(1), map[10 := Ready(1, 1)], {Success(0, 1, 0)}, map[], map[]);
    var at := map[10 := Ready(1, 1)][11 := Ready(1, 1)];
    done := CompletedBySecond(m, 1, at, {Success(0, 1, 0)}, map[], map[]);
    assert at[11 := Complete(1)] == map[10 := Ready(1, 1), 11 := Complete(1)];
  }

  // ---- nil options: a stale PatchWithLease brings a finished install back ----

  /** Worker 1 is about to store phase 1. */
  function NextPhaseFlight(etag: nat): Flight {
    Flight(PatchWithLease(1, NextPhase), 0, Doc(1, Some(0)), etag, 1000)
  }

  lemma PatchRead(m: Mode) returns (etag: nat)
    ensures Reached(m, Stage(false, 1, Some(0), map[10 := Passed(0, 1)], map[0 := 1], {Success(0, 1, 0)}),
                    map[0 := NextPhaseFlight(etag)], map[10 := 0], false)
  {
    hide ValidIdentity, Path, StoreInv, KeysInv, FlightsInv;
    FirstPhaseRan(m);
    var w := Stage(false, 1, Some(0), map[10 := Passed(0, 1)], map[0 := 1], {Success(0, 1, 0)});
    var x :| IsAt(m, x, w, map[], map[], false);
    PathServer(m, x, false);
    etag := x.v.etags[0];
    var c := ReadPatch(10, 0, 0);
    PathMore(m, x, c, false);
    var z := Stepped(m, x, c);
    assert z.v.flights == map[0 := NextPhaseFlight(etag)] && z.patching == map[10 := 0];
    assert IsAt(m, z, w, map[0 := NextPhaseFlight(etag)], map[10 := 0], false);
  }

  /** Meanwhile worker 2 completes the install. */
  lemma PatchOvertaken(m: Mode) returns (etag: nat, done: set<Success>)
    ensures Reached(m, Stage(true, 2, None, map[10 := Passed(0, 1), 11 := Complete(1)], map[0 := 1], done),
                    map[0 := NextPhaseFlight(etag)], map[10 := 0], false)
  {
    hide Reached, Stage, NextPhaseFlight;
    etag := PatchRead(m);
    var fl, pa := map[0 := NextPhaseFlight(etag)], map[10 := 0];
    Overtaken(m, 0, map[10 := Passed(0, 1)], {Success(0, 1, 0)}, fl, pa);
    Entered(m, true, 2, Some(0), map[10 := Passed(0, 1)], {Success(0, 1, 0)}, fl, pa);
    var at := map[10 := Passed(0, 1)][11 := Ready(0, 1)];
    done := CompletedBySecond(m, 0, at, {Success(0, 1, 0)}, fl, pa);
    assert at[11 := Complete(1)] == map[10 := Passed(0, 1), 11 := Complete(1)];
  }

  /** Worker 1 after its stale patch. */
  function Revived(done: set<Success>): World {
    Stage(true, 1, Some(1), map[10 := Ready(1, 2), 11 := Complete(1)], map[0 := 2], done)
  }

  /** Worker 1's Replace is accepted: Install is back, at phase 1, and worker 1 holds the lease. */
  lemma StalePatch(m: Mode) returns (done: set<Success>)
    requires !m.conditional
    ensures Reached(m, Revived(done), map[], map[], true)
  {
    hide Path, MayStep, Stepped, StoreInv, KeysInv, FlightsInv;
    var etag;
    etag, done := PatchOvertaken(m);
    var w := Stage(true, 2, None, map[10 := Passed(0, 1), 11 := Complete(1)], map[0 := 1], done);
    var x :| IsAt(m, x, w, map[0 := NextPhaseFlight(etag)], map[10 := 0], false);
    PathServer(m, x, false);
    PathNil(m, x);
    StaleSend(m, x, etag, done);
    PathMore(m, x, SendPatch(10), true);
    assert IsAt(m, Stepped(m, x, SendPatch(10)), Revived(done), map[], map[], true);
  }

  lemma StaleSend(m: Mode, x: Site, etag: nat, done: set<Success>)
    requires !m.conditional && ETagInv(x.v) && x.v.flights == map[0 := NextPhaseFlight(etag)] && x.patching == map[10 := 0]
    requires WorldOf(x) == Stage(true, 2, None, map[10 := Passed(0, 1), 11 := Complete(1)], map[0 := 1], done)
    ensures MayStep(m, x, SendPatch(10))
    ensures var z := Stepped(m, x, SendPatch(10));
      WorldOf(z) == Revived(done) && z.v.flights == map[] && z.patching == map[]
  {
    hide ValidIdentity, Can, Do;
    StaleFinish(m, x.v, etag);
    var z := Stepped(m, x, SendPatch(10));
    assert z.at == map[10 := Ready(1, 2), 11 := Complete(1)];
  }

  lemma StaleFinish(m: Mode, v: Server, etag: nat)
    requires !m.conditional && ETagInv(v) && v.flights == map[0 := NextPhaseFlight(etag)] && v.store.docs == map[0 := Doc(2, None)]
    ensures Can(m, v, Finish(0))
    ensures var u := Do(m, v, Finish(0)); u.flights == map[] && u.store == v.store.(docs := map[0 := Doc(1, Some(1))])
  {
    hide ValidIdentity;
    assert Do(m, v, Finish(0)).store.docs == map[0 := Doc(1, Some(1))];
    assert v.flights - {0} == map[];
  }

  /** Worker 1 goes on to the end: phase 0 has not been run for this record. */
  lemma StaleCompletion(m: Mode) returns (done: set<Success>)
    requires !m.conditional
    ensures Reached(m, Stage(true, 1, Some(2), map[10 := Passed(2, 2), 11 := Complete(1)], map[0 := 2], done), map[], map[], true)
  {
    hide Reached, Stage;
    done := StalePatch(m);
    var at := map[10 := Ready(1, 2), 11 := Complete(1)];
    Ran(m, true, 1, 1, 2, at, done, map[], map[], true);
    done := done + {Success(0, 2, 1)};
    Stored(m, true, 1, 1, 2, at[10 := Passed(1, 2)], done, map[], map[], true);
    at := at[10 := Passed(1, 2)][10 := Ready(2, 2)];
    Ran(m, true, 1, 2, 2, at, done, map[], map[], true);
    done := done + {Success(0, 2, 2)};
    assert at[10 := Passed(2, 2)] == map[10 := Passed(2, 2), 11 := Complete(1)];
  }

  // ---- the exact conditions ----

  /** In every run phases start in order; if `leased`, only the starts of lease holders count. */
  ghost predicate AlwaysInOrder(m: Mode, leased: bool) {
    forall xs, cs, n: nat, y ::
      IsInstallation(m, xs, cs) && n < |xs| && AboutToStart(xs[n], y) && (leased ==> Leased(xs[n], y)) ==> InOrder(xs, cs, n, y)
  }

  lemma UnleasedStart(m: Mode)
    ensures !AlwaysInOrder(m, false)
  {
    hide MayStep, Stepped;
    var done := StaleStart(m);
    var x :| IsAt(m, x, Stage(true, 2, None, map[10 := Ready(1, 1), 11 := Complete(1)], map[0 := 1], done), map[], map[], false);
    var xs, cs :| Leads(m, xs, cs, x, false);
    assert AboutToStart(xs[|cs|], 10) && !InOrder(xs, cs, |cs|, 10);
  }

  lemma UnconditionalStart(m: Mode)
    requires !m.conditional
    ensures !AlwaysInOrder(m, true)
  {
    hide MayStep, Stepped, HasReturned;
    var done := StalePatch(m);
    var x :| IsAt(m, x, Revived(done), map[], map[], true);
    var xs, cs :| Leads(m, xs, cs, x, true);
    assert AboutToStart(xs[|cs|], 10) && Leased(xs[|cs|], 10) && !InOrder(xs, cs, |cs|, 10);
  }

  /** With one session per process and key, phases start in order exactly if writes are conditional and the lease is held. */
  lemma InOrderIff(m: Mode, leased: bool)
    requires m.oneSession
    ensures AlwaysInOrder(m, leased) <==> m.conditional && leased
  {
    hide MayStep, Stepped, InOrder;
    if m.conditional && leased {
      forall xs, cs, n: nat, y | IsInstallation(m, xs, cs) && n < |xs| && AboutToStart(xs[n], y) && Leased(xs[n], y)
        ensures InOrder(xs, cs, n, y)
      {
        LeasedStartsInOrder(m, xs, cs, n, y);
      }
    } else if !leased {
      UnleasedStart(m);
    } else {
      UnconditionalStart(m);
    }
  }

  /** In every run Install returns success only after all its phases have, since it was last nil. */
  ghost predicate SuccessIsEarned(m: Mode) {
    forall xs: seq<Site>, cs: seq<Step>, n: nat ::
      IsInstallation(m, xs, cs) && n < |cs| && Completes(xs[n], cs[n]) ==> AllReturned(xs, cs, n, cs[n].session)
  }

  /** The run of `StaleCompletion`, up to the write that clears the record. */
  lemma UnearnedSuccess(m: Mode)
    requires !m.conditional
    ensures !SuccessIsEarned(m)
  {
    hide Path, HasReturned;
    var done := StaleCompletion(m);
    var w := Stage(true, 1, Some(2), map[10 := Passed(2, 2), 11 := Complete(1)], map[0 := 2], done);
    var x :| IsAt(m, x, w, map[], map[], true);
    PathServer(m, x, true);
    LastCall(m, x, w);
    var c := ReadPatch(10, 1, 0);
    PathMore(m, x, c, true);
    LastStep(m, Stepped(m, x, c));
  }

  lemma LastCall(m: Mode, x: Site, w: World)
    requires ETagInv(x.v) && WorldOf(x) == w && x.v.flights == map[] && x.patching == map[]
    requires exists done :: w == Stage(true, 1, Some(2), map[10 := Passed(2, 2), 11 := Complete(1)], map[0 := 2], done)
    ensures MayStep(m, x, ReadPatch(10, 1, 0))
    ensures var z := Stepped(m, x, ReadPatch(10, 1, 0));
      MayStep(m, z, SendPatch(10)) && Completes(z, SendPatch(10)) && z.v.store.sessions[10].id == 0
  {
    hide ValidIdentity;
  }

  lemma LastStep(m: Mode, x: Site)
    requires Path(m, x, true) && MayStep(m, x, SendPatch(10)) && Completes(x, SendPatch(10)) && x.v.store.sessions[10].id == 0
    ensures !SuccessIsEarned(m)
  {
    hide MayStep, Stepped, HasReturned;
    var xs, cs :| Leads(m, xs, cs, x, true);
    var c := SendPatch(10);
    Longer(m, xs, cs, c);
    StillLacks(xs, cs, Stepped(m, x, c), c);
    var ys, ds, n := xs + [Stepped(m, x, c)], cs + [c], |cs|;
    assert ys[n] == x && ds[n] == c;
    assert Recognised(0) && !HasReturned(ys, ds, n, 0, 0);
    assert !AllReturned(ys, ds, n, 10);
  }

  /** With one session per process and key, the success of Install means that all phases were run exactly if writes are conditional. */
  lemma SuccessIsEarnedIff(m: Mode)
    requires m.oneSession
    ensures SuccessIsEarned(m) <==> m.conditional
  {
    hide MayStep, Stepped, AllReturned;
    if m.conditional {
      forall xs: seq<Site>, cs: seq<Step>, n: nat | IsInstallation(m, xs, cs) && n < |cs| && Completes(xs[n], cs[n])
        ensures AllReturned(xs, cs, n, cs[n].session)
      {
        InstallerInterleaving.SuccessMeansAllPhases(m, xs, cs, n);
      }
    } else {
      UnearnedSuccess(m);
    }
  }
}
