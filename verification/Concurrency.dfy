/**
 The protocol as it runs: every write is a read, an edit of the copy that was
 read, and a Replace request that the server accepts or refuses.  Any number of
 requests are in flight at once.  The ETag of a document is fresh after every
 write to it.
 */
module Concurrency {
  import opened Wrappers
  import opened Documents
  import opened Protocol
  import opened StoreInvariants

  /** A write whose Replace request has been sent or is about to be. */
  datatype Flight = Flight(write: Write, id: DocId, base: Document, etag: nat, readAt: nat)

  datatype Server = Server(store: State, etags: map<DocId, nat>, nextETag: nat, flights: map<nat, Flight>)

  datatype Action =
    | Begin(flight: nat, write: Write, id: DocId)   // read, or take from the result of the Dequeue query
    | Finish(flight: nat)                           // the server accepts the Replace
    | Drop(flight: nat)                             // refused, failed or never sent
    | Direct(event: Event)                          // a request that is atomic anyway

  predicate InitServer(v: Server) {
    Init(v.store) && v == Server(v.store, map[], v.nextETag, map[])
  }

  /**
   setOptions returns before it sets If-Match when the options are nil.  Only
   Dequeue and Lease, which name the renewLease trigger, pass options.
   */
  predicate SendsIfMatch(m: Mode, w: Write) {
    m.conditional || RunsRenewLease(w)
  }

  ghost predicate CanFinish(m: Mode, v: Server, f: Flight) {
    && f.id in v.store.docs && f.id in v.etags
    && Edit(f.write, f.base).Edited?
    && (SendsIfMatch(m, f.write) ==> v.etags[f.id] == f.etag)
    && Guard(m, v.store, f.write, f.id)
  }

  ghost predicate Can(m: Mode, v: Server, a: Action) {
    match a
    case Begin(f, w, id) =>
      && f !in v.flights
      && id in v.store.docs && id in v.etags
      && (w.Dequeue? ==> Eligible(v.store.docs[id], v.store.now))
    case Finish(f) => f in v.flights && CanFinish(m, v, v.flights[f])
    case Drop(f) => f in v.flights
    case Direct(e) => !e.Commit? && Enabled(m, v.store, e)
  }

  function Finished(v: Server, f: Flight): Server
    requires f.id in v.store.docs && Edit(f.write, f.base).Edited?
  {
    v.(store := Written(v.store, f.write, f.id, Result(f.write, f.base, v.store.now)),
       etags := v.etags[f.id := v.nextETag],
       nextETag := v.nextETag + 1)
  }

  function Do(m: Mode, v: Server, a: Action): Server
    requires Can(m, v, a)
  {
    match a
    case Begin(f, w, id) =>
      v.(flights := v.flights[f := Flight(w, id, v.store.docs[id], v.etags[id], v.store.now)])
    case Finish(f) => Finished(v, v.flights[f]).(flights := v.flights - {f})
    case Drop(f) => v.(flights := v.flights - {f})
    case Direct(e) =>
      var t := v.(store := After(m, v.store, e));
      if e.Create? then t.(etags := v.etags[e.id := v.nextETag], nextETag := v.nextETag + 1)
      else if e.Remove? then t.(etags := v.etags - {v.store.sessions[e.session].id})
      else t
  }

  ghost predicate IsExecution(m: Mode, vs: seq<Server>, acts: seq<Action>) {
    && |vs| == |acts| + 1
    && InitServer(vs[0])
    && forall i :: 0 <= i < |acts| ==> Can(m, vs[i], acts[i]) && vs[i + 1] == Do(m, vs[i], acts[i])
  }

  // ---- ETags identify versions ----

  predicate GoodFlight(v: Server, f: Flight) {
    && f.etag < v.nextETag
    && f.readAt <= v.store.now
    && f.id in v.store.created
    && (f.write.Dequeue? ==> Eligible(f.base, f.readAt))
    && GoodDocument(v.store, f.base)
    && (f.id in v.store.docs ==> GoodBase(v.store, f.id, f.base))
    && (f.id in v.store.docs && f.id in v.etags && v.etags[f.id] == f.etag ==> v.store.docs[f.id] == f.base)
  }

  ghost predicate ETagInv(v: Server) {
    && v.etags.Keys == v.store.docs.Keys
    && forall id :: id in v.etags ==> v.etags[id] < v.nextETag
  }

  ghost predicate FlightsInv(v: Server) {
    forall f :: f in v.flights ==> GoodFlight(v, v.flights[f])
  }

  ghost predicate ServerInv(v: Server) {
    StoreInv(v.store) && KeysInv(v.store) && ETagInv(v) && FlightsInv(v)
  }

  /** What a flight relies on: time moves on, and a version is rewritten only under a new ETag. */
  ghost predicate Advances(v: Server, u: Server) {
    && v.nextETag <= u.nextETag
    && v.store.now <= u.store.now
    && Grows(v.store, u.store)
    && (forall id :: id in u.store.docs && id in v.store.created ==>
          id in v.store.docs
          && u.store.docs[id].identity == v.store.docs[id].identity
          && u.store.docs[id].resourceGroupId == v.store.docs[id].resourceGroupId)
    && (forall id :: id in u.etags && u.etags[id] < v.nextETag ==>
          id in v.etags && v.etags[id] == u.etags[id]
          && id in v.store.docs && id in u.store.docs && v.store.docs[id] == u.store.docs[id])
  }

  lemma FlightFrame(v: Server, u: Server, f: Flight)
    requires GoodFlight(v, f) && Advances(v, u)
    ensures GoodFlight(u, f)
  {}

  /** Storing a document under a fresh ETag. */
  lemma PutAdvances(v: Server, u: Server, id: DocId)
    requires ETagInv(v) && Grows(v.store, u.store)
    requires forall x :: x in v.store.docs ==> x in v.store.created
    requires id in u.store.docs && u.store.docs == v.store.docs[id := u.store.docs[id]]
    requires u.etags == v.etags[id := v.nextETag] && u.nextETag == v.nextETag + 1
    requires v.store.now <= u.store.now
    requires if id in v.store.docs then
        u.store.docs[id].identity == v.store.docs[id].identity
        && u.store.docs[id].resourceGroupId == v.store.docs[id].resourceGroupId
      else id !in v.store.created
    ensures Advances(v, u) && ETagInv(u)
  {
    hide Grows;
  }

  lemma FinishAdvances(v: Server, f: Flight)
    requires ETagInv(v) && f.id in v.store.docs && Edit(f.write, f.base).Edited?
    requires f.base.identity == v.store.docs[f.id].identity
    requires f.base.resourceGroupId == v.store.docs[f.id].resourceGroupId
    requires forall id :: id in v.store.docs ==> id in v.store.created
    requires Grows(v.store, Finished(v, f).store)
    ensures Advances(v, Finished(v, f)) && ETagInv(Finished(v, f))
  {
    ResultIdentity(f.write, f.base, v.store.now);
    PutAdvances(v, Finished(v, f), f.id);
  }

  lemma FinishKeepsStore(m: Mode, v: Server, f: Flight)
    requires ServerInv(v) && GoodFlight(v, f) && CanFinish(m, v, f)
    ensures StoreInv(Finished(v, f).store) && KeysInv(Finished(v, f).store)
    ensures Grows(v.store, Finished(v, f).store)
  {
    WriteKeepsDocs(m, v.store, f.write, f.id, f.base);
    WriteKeepsStore(m, v.store, f.write, f.id, f.base);
    WriteKeepsKeys(v.store, f.write, f.id, f.base);
  }

  lemma DirectAdvances(m: Mode, v: Server, a: Action)
    requires ETagInv(v) && a.Direct? && Can(m, v, a)
    requires StoreInv(v.store)
    ensures Advances(v, Do(m, v, a)) && ETagInv(Do(m, v, a))
  {
    StepGrows(m, v.store, a.event);
    var u := Do(m, v, a);
    if a.event.Create? {
      PutAdvances(v, u, a.event.id);
    }
  }

  lemma DirectKeeps(m: Mode, v: Server, a: Action)
    requires ServerInv(v) && a.Direct? && Can(m, v, a)
    ensures StoreInv(Do(m, v, a).store) && KeysInv(Do(m, v, a).store)
  {
    DirectKeepsStore(m, v.store, a.event);
    DirectKeepsKeys(m, v.store, a.event);
  }

  lemma FlightsFrame(v: Server, u: Server, f: Option<nat>)
    requires FlightsInv(v) && Advances(v, u)
    requires forall g :: g in u.flights && f != Some(g) ==> g in v.flights && u.flights[g] == v.flights[g]
    requires f.Some? && f.value in u.flights ==> GoodFlight(u, u.flights[f.value])
    ensures FlightsInv(u)
  {
    forall g | g in u.flights && f != Some(g) ensures GoodFlight(u, u.flights[g]) {
      FlightFrame(v, u, v.flights[g]);
    }
  }

  lemma BeginKeepsFlights(m: Mode, v: Server, a: Action)
    requires ServerInv(v) && Can(m, v, a) && a.Begin?
    ensures FlightsInv(Do(m, v, a))
  {
    hide KeysInv, SessionsInv, AsyncsInv, ValidIdentity, Edit;
    var u := Do(m, v, a);
    assert GoodBase(v.store, a.id, v.store.docs[a.id]);
    FlightsFrame(v, u, Some(a.flight));
  }

  lemma FinishKeepsServer(m: Mode, v: Server, f: nat)
    requires ServerInv(v) && Can(m, v, Finish(f))
    ensures ServerInv(Do(m, v, Finish(f)))
  {
    var fl := v.flights[f];
    assert GoodFlight(v, fl);
    FinishKeepsStore(m, v, fl);
    FinishAdvances(v, fl);
    FlightsFrame(v, Do(m, v, Finish(f)), Some(f));
  }

  lemma DirectKeepsServer(m: Mode, v: Server, a: Action)
    requires ServerInv(v) && Can(m, v, a) && a.Direct?
    ensures ServerInv(Do(m, v, a))
  {
    hide Enabled, After, StoreInv, KeysInv;
    DirectKeeps(m, v, a);
    DirectAdvances(m, v, a);
    FlightsFrame(v, Do(m, v, a), None);
  }

  lemma ActionKeepsServer(m: Mode, v: Server, a: Action)
    requires ServerInv(v) && Can(m, v, a)
    ensures ServerInv(Do(m, v, a))
  {
    match a
    case Begin(_, _, _) => BeginKeepsFlights(m, v, a);
    case Drop(_) =>
    case Finish(f) => FinishKeepsServer(m, v, f);
    case Direct(_) => DirectKeepsServer(m, v, a);
  }

  /** Every state of every execution, conditional or not, satisfies the invariant. */
  lemma {:induction false} ExecutionKeepsServer(m: Mode, vs: seq<Server>, acts: seq<Action>, n: nat)
    requires IsExecution(m, vs, acts) && n < |vs|
    ensures ServerInv(vs[n])
  {
    if n == 0 {
      InitStore(vs[0].store);
    } else {
      ExecutionKeepsServer(m, vs, acts, n - 1);
      ActionKeepsServer(m, vs[n - 1], acts[n - 1]);
    }
  }

  // ---- conditional writes are atomic ----

  /** The atomic event that an action amounts to; Tick(0) changes nothing. */
  function Atomic(v: Server, a: Action): Event {
    match a
    case Finish(f) => if f in v.flights then Commit(v.flights[f].write, v.flights[f].id) else Tick(0)
    case Direct(e) => e
    case _ => Tick(0)
  }

  /** A write that carries If-Match edits the version that is current when it is stored. */
  lemma IfMatchIsAtomic(m: Mode, v: Server, f: nat)
    requires ServerInv(v) && Can(m, v, Finish(f)) && SendsIfMatch(m, v.flights[f].write)
    ensures var w, id := v.flights[f].write, v.flights[f].id;
      && v.flights[f].base == v.store.docs[id]
      && Enabled(m, v.store, Commit(w, id))
      && Do(m, v, Finish(f)).store == After(m, v.store, Commit(w, id))
  {
    var fl := v.flights[f];
    assert GoodFlight(v, fl);
  }

  lemma ActionRefines(m: Mode, v: Server, a: Action)
    requires ServerInv(v) && Can(m, v, a) && m.conditional
    ensures Enabled(m, v.store, Atomic(v, a))
    ensures Do(m, v, a).store == After(m, v.store, Atomic(v, a))
  {
    if a.Finish? {
      IfMatchIsAtomic(m, v, a.flight);
    }
  }

  function Stores(vs: seq<Server>): (ss: seq<State>)
    ensures |ss| == |vs|
    ensures forall i :: 0 <= i < |vs| ==> ss[i] == vs[i].store
  {
    seq(|vs|, i requires 0 <= i < |vs| => vs[i].store)
  }

  function Events(vs: seq<Server>, acts: seq<Action>): (es: seq<Event>)
    requires |vs| == |acts| + 1
    ensures |es| == |acts|
    ensures forall i :: 0 <= i < |acts| ==> es[i] == Atomic(vs[i], acts[i])
  {
    seq(|acts|, i requires 0 <= i < |acts| => Atomic(vs[i], acts[i]))
  }

  /** With conditional writes, every interleaving is a run of the atomic protocol. */
  lemma ConditionalExecutionsAreAtomicRuns(m: Mode, vs: seq<Server>, acts: seq<Action>)
    requires m.conditional && IsExecution(m, vs, acts)
    ensures IsRun(m, Stores(vs), Events(vs, acts))
  {
    var ss, es := Stores(vs), Events(vs, acts);
    forall i | 0 <= i < |es| ensures Enabled(m, ss[i], es[i]) && ss[i + 1] == After(m, ss[i], es[i]) {
      ExecutionKeepsServer(m, vs, acts, i);
      ActionRefines(m, vs[i], acts[i]);
    }
  }

  // ---- nothing is lost by reading and writing apart ----

  /** Read and write with nothing in between. */
  lemma WriteAtOnce(m: Mode, v: Server, f: nat, w: Write, id: DocId)
    requires ServerInv(v) && f !in v.flights && Enabled(m, v.store, Commit(w, id))
    ensures Can(m, v, Begin(f, w, id)) && id in v.store.docs
    ensures var u := Do(m, v, Begin(f, w, id));
      && u.store == v.store && u.flights == v.flights[f := Flight(w, id, v.store.docs[id], v.etags[id], v.store.now)]
      && Can(m, u, Finish(f))
      && Do(m, u, Finish(f)).store == After(m, v.store, Commit(w, id)) && Do(m, u, Finish(f)).flights == v.flights
  {
    hide StoreInv, KeysInv, FlightsInv;
    var u := Do(m, v, Begin(f, w, id));
    assert u.flights - {f} == v.flights;
  }

  lemma OneMoreAction(m: Mode, vs: seq<Server>, acts: seq<Action>, a: Action)
    requires IsExecution(m, vs, acts) && Can(m, vs[|acts|], a)
    ensures IsExecution(m, vs + [Do(m, vs[|acts|], a)], acts + [a])
  {
    hide Can, Do;
    var us, bs := vs + [Do(m, vs[|acts|], a)], acts + [a];
    forall i | 0 <= i < |bs| ensures Can(m, us[i], bs[i]) && us[i + 1] == Do(m, us[i], bs[i]) {
      if i < |acts| {
        assert us[i] == vs[i] && us[i + 1] == vs[i + 1] && bs[i] == acts[i];
      }
    }
  }

  /** In every mode, whatever the atomic protocol reaches, an execution reaches. */
  lemma {:induction false} RunsAreExecutions(m: Mode, ss: seq<State>, es: seq<Event>, n: nat)
    returns (vs: seq<Server>, acts: seq<Action>)
    requires IsRun(m, ss, es) && n < |ss|
    ensures IsExecution(m, vs, acts) && vs[|acts|].store == ss[n] && vs[|acts|].flights == map[]
  {
    hide Can, Do, Enabled, After, ServerInv;
    if n == 0 {
      vs, acts := [Server(ss[0], map[], 0, map[])], [];
    } else {
      vs, acts := RunsAreExecutions(m, ss, es, n - 1);
      var e := es[n - 1];
      if e.Commit? {
        ExecutionKeepsServer(m, vs, acts, |acts|);
        WriteAtOnce(m, vs[|acts|], 0, e.write, e.id);
        var v := vs[|acts|];
        OneMoreAction(m, vs, acts, Begin(0, e.write, e.id));
        vs, acts := vs + [Do(m, v, Begin(0, e.write, e.id))], acts + [Begin(0, e.write, e.id)];
        v := vs[|acts|];
        OneMoreAction(m, vs, acts, Finish(0));
        vs, acts := vs + [Do(m, v, Finish(0))], acts + [Finish(0)];
      } else {
        var v := vs[|acts|];
        DirectAtOnce(m, v, e);
        OneMoreAction(m, vs, acts, Direct(e));
        vs, acts := vs + [Do(m, v, Direct(e))], acts + [Direct(e)];
      }
    }
  }

  lemma DirectAtOnce(m: Mode, v: Server, e: Event)
    requires !e.Commit? && Enabled(m, v.store, e)
    ensures Can(m, v, Direct(e)) && Do(m, v, Direct(e)).store == After(m, v.store, e) && Do(m, v, Direct(e)).flights == v.flights
  {
    hide Enabled, After;
  }
}
