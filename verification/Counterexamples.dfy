/**
 Executions that show each assumption of the protocol theorems to be needed, and
 the theorems with their conditions as equivalences.
 */
module Counterexamples {
  import opened Wrappers
  import opened Documents
  import opened Protocol
  import opened StoreInvariants
  import opened Concurrency
  import opened LeaseSafety
  import opened Lifecycle
  import opened DequeueLimit
  import opened AsyncOperations
  import opened SampleCluster
  import opened WriteEffects

  // ---- building executions ----

  /** An execution under construction. */
  datatype Chain = Start(v: Server) | Next(prev: Chain, act: Action)

  ghost predicate Valid(m: Mode, c: Chain)
    decreases c, 0
  {
    match c
    case Start(v) => InitServer(v)
    case Next(p, a) => Valid(m, p) && Can(m, Last(m, p), a)
  }

  ghost function Last(m: Mode, c: Chain): Server
    requires Valid(m, c)
    decreases c, 1
  {
    match c
    case Start(v) => v
    case Next(p, a) => Do(m, Last(m, p), a)
  }

  ghost function States(m: Mode, c: Chain): (ss: seq<State>)
    requires Valid(m, c)
  {
    match c
    case Start(v) => [v.store]
    case Next(p, a) => States(m, p) + [Last(m, c).store]
  }

  ghost function Happened(m: Mode, c: Chain): (es: seq<Event>)
    requires Valid(m, c)
    ensures |States(m, c)| == |es| + 1 && States(m, c)[|es|] == Last(m, c).store
  {
    match c
    case Start(_) => []
    case Next(p, a) => Happened(m, p) + [Atomic(Last(m, p), a)]
  }

  lemma {:induction false} ToExecution(m: Mode, c: Chain) returns (vs: seq<Server>, acts: seq<Action>)
    requires Valid(m, c)
    ensures IsExecution(m, vs, acts) && vs[|acts|] == Last(m, c)
    ensures Stores(vs) == States(m, c) && Events(vs, acts) == Happened(m, c)
  {
    hide Can, Do, InitServer, Atomic;
    match c
    case Start(v) =>
      vs, acts := [v], [];
    case Next(p, a) =>
      var us, bs := ToExecution(m, p);
      vs, acts := us + [Last(m, c)], bs + [a];
      forall i | 0 <= i < |acts| ensures Can(m, vs[i], acts[i]) && vs[i + 1] == Do(m, vs[i], acts[i]) {
        if i < |bs| {
          assert vs[i] == us[i] && vs[i + 1] == us[i + 1] && acts[i] == bs[i];
        }
      }
      assert Stores(vs) == Stores(us) + [Last(m, c).store];
      assert Events(vs, acts) == Events(us, bs) + [Atomic(Last(m, p), a)];
  }

  /** `d` is `c` with one more action, amounting to event `e`. */
  ghost predicate Extends(m: Mode, c: Chain, d: Chain, e: Event) {
    && Valid(m, c) && Valid(m, d)
    && States(m, d) == States(m, c) + [Last(m, d).store]
    && Happened(m, d) == Happened(m, c) + [e]
  }

  lemma Then(m: Mode, c: Chain, a: Action) returns (d: Chain)
    requires Valid(m, c) && Can(m, Last(m, c), a)
    ensures Extends(m, c, d, Atomic(Last(m, c), a)) && Last(m, d) == Do(m, Last(m, c), a)
  {
    d := Next(c, a);
  }

  lemma ThenDirect(m: Mode, c: Chain, e: Event) returns (d: Chain)
    requires Valid(m, c) && !e.Commit? && !e.Create? && !e.Remove? && Enabled(m, Last(m, c).store, e)
    ensures Extends(m, c, d, e) && Last(m, d) == Last(m, c).(store := After(m, Last(m, c).store, e))
  {
    d := Then(m, c, Direct(e));
  }

  /** Read document `id` for a write that is finished later, as flight `f`. */
  lemma ThenBegin(m: Mode, c: Chain, f: nat, w: Write, id: DocId) returns (d: Chain)
    requires Valid(m, c) && Can(m, Last(m, c), Begin(f, w, id))
    ensures Extends(m, c, d, Tick(0))
    ensures var v := Last(m, c);
      Last(m, d) == v.(flights := v.flights[f := Flight(w, id, v.store.docs[id], v.etags[id], v.store.now)])
  {
    d := Then(m, c, Begin(f, w, id));
  }

  /** Finish flight `f`, whose base may be stale when the write is not conditional. */
  lemma ThenFinish(m: Mode, c: Chain, f: nat) returns (d: Chain)
    requires Valid(m, c) && Can(m, Last(m, c), Finish(f))
    ensures Extends(m, c, d, Commit(Last(m, c).flights[f].write, Last(m, c).flights[f].id))
    ensures var v := Last(m, c); Last(m, d) == Finished(v, v.flights[f]).(flights := v.flights - {f})
  {
    d := Then(m, c, Finish(f));
  }

  /** Read and write with nothing in between, using the free flight number `f`. */
  lemma ThenWrite(m: Mode, c: Chain, f: nat, w: Write, id: DocId) returns (d: Chain)
    requires Valid(m, c) && f !in Last(m, c).flights && id in Last(m, c).etags
    requires Enabled(m, Last(m, c).store, Commit(w, id))
    ensures Valid(m, d)
    ensures Happened(m, d) == Happened(m, c) + [Tick(0), Commit(w, id)]
    ensures States(m, d) == States(m, c) + [Last(m, c).store, Last(m, d).store]
    ensures var v := Last(m, c);
      Last(m, d) == Server(After(m, v.store, Commit(w, id)), v.etags[id := v.nextETag], v.nextETag + 1, v.flights)
  {
    hide ValidIdentity, Valid, Last, States, Happened;
    var v := Last(m, c);
    var b := ThenBegin(m, c, f, w, id);
    var u := Last(m, b);
    assert u.store == v.store && u.flights[f] == Flight(w, id, v.store.docs[id], v.etags[id], v.store.now);
    assert CanFinish(m, u, u.flights[f]);
    d := ThenFinish(m, b, f);
    assert u.flights - {f} == v.flights;
  }

  // ---- a cluster, created and dequeued ----

  function Cluster(owner: Option<Uuid>, expires: nat, dequeues: nat, op: Option<OperationId>, state: ProvisioningState): Document {
    Document(IDENTITY, RESOURCE_GROUP, owner, expires, dequeues, op, state, Unset, None, 0)
  }

  function Operation(initial: ProvisioningState, state: ProvisioningState): AsyncDocument {
    AsyncDocument(KEY, initial, state)
  }

  function CreatedState(): State {
    State(1000,
          map[0 := Cluster(None, 0, 0, Some(0), Creating)],
          map[0 := Operation(Creating, Creating)],
          map[], {0}, {0}, map[])
  }

  /** Worker 1 holds the lease from time 1000 on, in session 10. */
  function LeasedState(): State {
    State(1000,
          map[0 := Cluster(Some(1), 61, 1, Some(0), Creating)],
          map[0 := Operation(Creating, Creating)],
          map[10 := Session(1, 0, KEY, Creating, Some(0), false, None)],
          {0}, {0}, map[])
  }

  /** The event ends a lease or removes a document. */
  predicate Ends(e: Event) {
    e.Remove? || (e.Commit? && e.write.EndLease?)
  }

  lemma Empty(m: Mode) returns (c: Chain)
    ensures Valid(m, c) && Happened(m, c) == [] && |States(m, c)| == 1
    ensures Last(m, c) == Server(State(0, map[], map[], map[], {}, {}, map[]), map[], 0, map[])
  {
    c := Start(Server(State(0, map[], map[], map[], {}, {}, map[]), map[], 0, map[]));
  }

  lemma Created(m: Mode) returns (c: Chain)
    ensures Valid(m, c) && |Happened(m, c)| == 3 && |States(m, c)| == 4
    ensures Last(m, c) == Server(CreatedState(), map[0 := 0], 1, map[])
    ensures forall k :: 0 <= k < 3 ==> !Ends(Happened(m, c)[k])
  {
    hide ValidIdentity, Valid, Last, States, Happened;
    c := Empty(m);
    c := ThenDirect(m, c, Tick(1000));
    assert Last(m, c).store == State(1000, map[], map[], map[], {}, {}, map[]);
    c := ThenDirect(m, c, NewAsync(0, KEY, Creating));
    assert Last(m, c).store == State(1000, map[], map[0 := Operation(Creating, Creating)], map[], {}, {}, map[]);
    assert ValidIdentity(IDENTITY, RESOURCE_GROUP);
    c := Then(m, c, Direct(Create(0, IDENTITY, RESOURCE_GROUP, 0, 0)));
  }

  lemma Leased(m: Mode) returns (c: Chain)
    ensures Valid(m, c) && |Happened(m, c)| == 5 && |States(m, c)| == 6
    ensures Last(m, c) == Server(LeasedState(), map[0 := 1], 2, map[])
    ensures States(m, c)[3] == States(m, c)[4] == CreatedState() && States(m, c)[5] == LeasedState()
    ensures Happened(m, c)[3] == Tick(0) && Happened(m, c)[4] == Commit(Dequeue(1, 10), 0)
    ensures forall k :: 0 <= k < 5 ==> !Ends(Happened(m, c)[k])
  {
    hide ValidIdentity, Valid, Last, States, Happened;
    c := Created(m);
    c := ThenWrite(m, c, 0, Dequeue(1, 10), 0);
  }

  /** From the leased state on: 61 seconds later worker 2 dequeues the cluster, in session 11. */
  lemma SecondDequeue(m: Mode, c: Chain) returns (d: Chain)
    requires Valid(m, c) && 2 !in Last(m, c).flights && 0 in Last(m, c).etags
    requires var s := Last(m, c).store;
      s.docs == LeasedState().docs && s.now == 1000 && 11 !in s.sessions && Lone(s, 2, KEY)
    ensures Valid(m, d)
    ensures Happened(m, d) == Happened(m, c) + [Tick(61_000), Tick(0), Commit(Dequeue(2, 11), 0)]
    ensures States(m, d) == States(m, c) + [Last(m, c).store.(now := 62_000), Last(m, c).store.(now := 62_000), Last(m, d).store]
    ensures var v := Last(m, c);
      Last(m, d) == Server(
        v.store.(now := 62_000,
                 docs := map[0 := Cluster(Some(2), 122, 2, Some(0), Creating)],
                 sessions := v.store.sessions[11 := Session(2, 0, KEY, Creating, Some(0), false, None)]),
        v.etags[0 := v.nextETag], v.nextETag + 1, v.flights)
  {
    hide ValidIdentity, Valid, Last, States, Happened;
    d := ThenDirect(m, c, Tick(61_000));
    var s := Last(m, d).store;
    assert s == Last(m, c).store.(now := 62_000);
    d := ThenWrite(m, d, 2, Dequeue(2, 11), 0);
    assert Last(m, d).store.docs == map[0 := Cluster(Some(2), 122, 2, Some(0), Creating)];
  }

  // ---- nil options: a stale PatchWithLease undoes a renewal, and a Dequeue ----

  function StalePatch(): Flight {
    Flight(PatchWithLease(1, SetContent(7)), 0, Cluster(Some(1), 61, 1, Some(0), Creating), 1, 1000)
  }

  lemma PatchBegun(m: Mode) returns (c: Chain)
    ensures Valid(m, c) && |Happened(m, c)| == 6 && |States(m, c)| == 7
    ensures States(m, c)[5] == LeasedState() && !Takes(Happened(m, c)[5], 0) && !Resets(Happened(m, c)[5], 0)
    ensures Last(m, c) == Server(LeasedState(), map[0 := 1], 2, map[1 := StalePatch()])
  {
    hide ValidIdentity, Valid, Last, States, Happened;
    c := Leased(m);
    c := ThenBegin(m, c, 1, PatchWithLease(1, SetContent(7)), 0);
  }

  lemma Renewed50(m: Mode) returns (c: Chain)
    ensures Valid(m, c) && |Happened(m, c)| == 9 && |States(m, c)| == 10
    ensures Happened(m, c)[8] == Commit(Lease(1), 0) && States(m, c)[8].now == 51_000
    ensures Last(m, c) == Server(
      LeasedState().(now := 51_000, docs := map[0 := Cluster(Some(1), 111, 1, Some(0), Creating)]),
      map[0 := 2], 3, map[1 := StalePatch()])
  {
    hide ValidIdentity, Valid, Last, States, Happened;
    c := PatchBegun(m);
    c := ThenDirect(m, c, Tick(50_000));
    c := ThenWrite(m, c, 2, Lease(1), 0);
  }

  lemma RenewalUndone(m: Mode) returns (c: Chain)
    requires !m.conditional
    ensures Valid(m, c) && |Happened(m, c)| == 10 && |States(m, c)| == 11
    ensures Happened(m, c)[8] == Commit(Lease(1), 0) && States(m, c)[8].now == 51_000
    ensures !Gives(Happened(m, c)[9], 0, 1)
    ensures Last(m, c) == Server(
      LeasedState().(now := 51_000, docs := map[0 := Cluster(Some(1), 61, 1, Some(0), Creating).(content := 7)]),
      map[0 := 3], 4, map[])
  {
    hide ValidIdentity, Valid, Last, States, Happened;
    c := Renewed50(m);
    c := ThenFinish(m, c, 1);
  }

  /** Worker 2 takes the lease 11 seconds after worker 1 renewed it. */
  lemma EarlyTakeover(m: Mode) returns (c: Chain)
    requires !m.conditional
    ensures Valid(m, c) && !NoEarlyTakeover(States(m, c), Happened(m, c))
  {
    hide ValidIdentity, Valid, Last, States, Happened;
    c := RenewalUndone(m);
    c := ThenDirect(m, c, Tick(11_000));
    c := ThenWrite(m, c, 3, Dequeue(2, 11), 0);
    var ss, es := States(m, c), Happened(m, c);
    assert Renews(es[8], 0, 1) && Takes(es[12], 0);
    assert forall k :: 8 < k < 12 ==> !Gives(es[k], 0, 1);
    assert ss[8].now == 51_000 && ss[12].now == 62_000;
  }

  // ---- nil options: no bound on the handouts ----

  /** The sessions of worker 1 and of the `n` others who have each dequeued the cluster once. */
  function Overtakers(n: nat): map<SessionId, Session> {
    (if n == 0 then map[] else Overtakers(n - 1))[10 + n := Session(n + 1, 0, KEY, Creating, Some(0), false, None)]
  }

  lemma {:induction false} OvertakersDiffer(n: nat)
    ensures forall x :: x in Overtakers(n) ==> x <= 10 + n && Overtakers(n)[x].uuid <= n + 1
  {
    if n > 0 {
      OvertakersDiffer(n - 1);
    }
  }

  /** Worker 1 has written over the Dequeues of `n` others, of which the counter knows nothing. */
  function AfterRounds(n: nat): State {
    LeasedState().(now := 62_000,
                   docs := map[0 := Cluster(Some(1), 61, 1, Some(0), Creating).(content := if n == 0 then 0 else 7)],
                   sessions := Overtakers(n))
  }

  /** The chain ends after `n` rounds, without a reset since the cluster was created, with `n` + 1 handouts. */
  ghost predicate HandedOut(m: Mode, c: Chain, n: nat) {
    && Valid(m, c)
    && |Happened(m, c)| >= 3 && |States(m, c)| == |Happened(m, c)| + 1
    && 0 in States(m, c)[3].docs && States(m, c)[3].docs[0].dequeues == 0
    && (forall k :: 3 <= k < |Happened(m, c)| ==> !Resets(Happened(m, c)[k], 0))
    && Handed(States(m, c), Happened(m, c), 0, 3, |Happened(m, c)|) == n + 1
  }

  lemma {:induction false} HandedPrefix(ss: seq<State>, es: seq<Event>, t: State, e: Event, i: nat, j: nat)
    requires |ss| == |es| + 1 && i <= j <= |es|
    ensures Handed(ss + [t], es + [e], 0, i, j) == Handed(ss, es, 0, i, j)
  {
    if i < j {
      HandedPrefix(ss, es, t, e, i, j - 1);
    }
  }

  /** One more event, which hands out the cluster or does not. */
  lemma HandedMore(m: Mode, c: Chain, d: Chain, e: Event, n: nat)
    requires HandedOut(m, c, n) && Extends(m, c, d, e) && !Resets(e, 0)
    ensures HandedOut(m, d, n + if HandsOut(Last(m, c).store, e, 0) then 1 else 0)
  {
    hide ValidIdentity, Valid, Last, States, Happened;
    var ss, es := States(m, c), Happened(m, c);
    HandedPrefix(ss, es, Last(m, d).store, e, 3, |es|);
    assert Happened(m, d)[|es|] == e && States(m, d)[|es|] == Last(m, c).store;
  }

  lemma NoRoundYet(m: Mode) returns (c: Chain)
    ensures Valid(m, c) && HandedOut(m, c, 0) && Last(m, c) == Server(AfterRounds(0), map[0 := 1], 2, map[])
  {
    hide ValidIdentity, Valid, Last, States, Happened;
    c := Leased(m);
    var ss, es := States(m, c), Happened(m, c);
    assert Handed(ss, es, 0, 3, 3) == 0 && Handed(ss, es, 0, 3, 4) == 0 && Handed(ss, es, 0, 3, 5) == 1;
    assert HandedOut(m, c, 0);
    var d := ThenDirect(m, c, Tick(61_000));
    HandedMore(m, c, d, Tick(61_000), 0);
    c := d;
  }

  /** What worker 1 reads in round `n`. */
  function RoundPatch(n: nat, etag: nat): Flight {
    Flight(PatchWithLease(1, SetContent(7)), 0, AfterRounds(n).docs[0], etag, 62_000)
  }

  lemma RoundRead(m: Mode, c: Chain, n: nat, etag: nat) returns (d: Chain)
    requires Valid(m, c) && HandedOut(m, c, n) && Last(m, c) == Server(AfterRounds(n), map[0 := etag], etag + 1, map[])
    ensures Valid(m, d) && HandedOut(m, d, n)
    ensures Last(m, d) == Server(AfterRounds(n), map[0 := etag], etag + 1, map[1 := RoundPatch(n, etag)])
  {
    hide ValidIdentity, Valid, Last, States, Happened, HandedOut, Overtakers;
    d := ThenBegin(m, c, 1, PatchWithLease(1, SetContent(7)), 0);
    HandedMore(m, c, d, Tick(0), n);
  }

  function RoundDequeue(n: nat, etag: nat): Flight {
    Flight(Dequeue(n + 2, n + 11), 0, AfterRounds(n).docs[0], etag, 62_000)
  }

  /** The server once another worker has dequeued in round `n`. */
  function TakenServer(n: nat, etag: nat): Server {
    Server(AfterRounds(n).(docs := map[0 := Cluster(Some(n + 2), 122, 2, Some(0), Creating).(content := if n == 0 then 0 else 7)],
                           sessions := Overtakers(n + 1)),
           map[0 := etag + 1], etag + 2, map[1 := RoundPatch(n, etag)])
  }

  lemma RoundQueried(m: Mode, c: Chain, n: nat, etag: nat) returns (d: Chain)
    requires Valid(m, c) && HandedOut(m, c, n)
    requires Last(m, c) == Server(AfterRounds(n), map[0 := etag], etag + 1, map[1 := RoundPatch(n, etag)])
    ensures Valid(m, d) && HandedOut(m, d, n)
    ensures Last(m, d) == Server(AfterRounds(n), map[0 := etag], etag + 1, map[1 := RoundPatch(n, etag), 2 := RoundDequeue(n, etag)])
  {
    hide ValidIdentity, Valid, Last, States, Happened, HandedOut, Overtakers, RoundPatch;
    d := ThenBegin(m, c, 2, Dequeue(n + 2, n + 11), 0);
    HandedMore(m, c, d, Tick(0), n);
  }

  lemma RoundMayTake(m: Mode, v: Server, n: nat, etag: nat)
    requires v == Server(AfterRounds(n), map[0 := etag], etag + 1, map[1 := RoundPatch(n, etag), 2 := RoundDequeue(n, etag)])
    ensures Can(m, v, Finish(2))
    ensures Finished(v, v.flights[2]).(flights := v.flights - {2}) == TakenServer(n, etag)
  {
    hide ValidIdentity, RoundPatch;
    OvertakersDiffer(n);
    assert v.flights - {2} == map[1 := RoundPatch(n, etag)];
  }

  /** Another worker dequeues. */
  lemma RoundTaken(m: Mode, c: Chain, n: nat, etag: nat) returns (d: Chain)
    requires Valid(m, c) && HandedOut(m, c, n)
    requires Last(m, c) == Server(AfterRounds(n), map[0 := etag], etag + 1, map[1 := RoundPatch(n, etag)])
    ensures Valid(m, d) && HandedOut(m, d, n + 1)
    ensures Last(m, d) == TakenServer(n, etag)
  {
    hide ValidIdentity, Valid, Last, States, Happened, HandedOut, RoundPatch, Overtakers, Finished, Can;
    var e := RoundQueried(m, c, n, etag);
    RoundMayTake(m, Last(m, e), n, etag);
    d := ThenFinish(m, e, 2);
    HandedMore(m, e, d, Commit(Dequeue(n + 2, n + 11), 0), n);
  }

  /** Worker 1 writes back what it read. */
  lemma OneRound(m: Mode, c: Chain, n: nat, etag: nat) returns (d: Chain)
    requires !m.conditional && Valid(m, c) && HandedOut(m, c, n) && Last(m, c) == Server(AfterRounds(n), map[0 := etag], etag + 1, map[])
    ensures Valid(m, d) && HandedOut(m, d, n + 1) && Last(m, d) == Server(AfterRounds(n + 1), map[0 := etag + 2], etag + 3, map[])
  {
    hide ValidIdentity, Valid, Last, States, Happened, HandedOut, Overtakers;
    var e := RoundRead(m, c, n, etag);
    e := RoundTaken(m, e, n, etag);
    d := ThenFinish(m, e, 1);
    HandedMore(m, e, d, Commit(PatchWithLease(1, SetContent(7)), 0), n + 1);
    assert Last(m, d).store.docs == AfterRounds(n + 1).docs;
  }

  /** Any number of handouts between two resets. */
  lemma {:induction false} ManyHandouts(m: Mode, n: nat) returns (c: Chain, etag: nat)
    requires !m.conditional
    ensures Valid(m, c) && HandedOut(m, c, n) && Last(m, c) == Server(AfterRounds(n), map[0 := etag], etag + 1, map[])
  {
    hide ValidIdentity, Valid, Last, States, Happened, HandedOut, AfterRounds;
    if n == 0 {
      c := NoRoundYet(m);
      etag := 1;
    } else {
      c, etag := ManyHandouts(m, n - 1);
      c := OneRound(m, c, n - 1, etag);
      etag := etag + 2;
    }
  }

  /** The counter knows of one handout, but there have been two. */
  lemma LostDequeue(m: Mode) returns (c: Chain)
    requires !m.conditional
    ensures Valid(m, c) && !CounterIsExact(States(m, c), Happened(m, c))
  {
    hide ValidIdentity, Valid, Last, States, Happened;
    var etag;
    c, etag := ManyHandouts(m, 1);
    assert States(m, c)[|Happened(m, c)|].docs[0].dequeues == 1;
  }

  /** Six handouts of one cluster without a reset. */
  lemma SixHandouts(m: Mode) returns (c: Chain)
    requires !m.conditional
    ensures Valid(m, c) && !BoundedHandouts(States(m, c), Happened(m, c))
  {
    hide ValidIdentity, Valid, Last, States, Happened;
    var etag;
    c, etag := ManyHandouts(m, MAX_DEQUEUE_COUNT);
  }

  // ---- nil options: a stale PUT overwrites what happened since it read ----

  function DoneState(): State {
    State(1000,
          map[0 := Cluster(None, 0, 0, None, Succeeded)],
          map[0 := Operation(Creating, Succeeded)],
          map[], {0}, {0}, map[0 := Succeeded])
  }

  lemma DonePublished(m: Mode) returns (c: Chain)
    ensures Valid(m, c) && |Happened(m, c)| == 6 && |States(m, c)| == 7
    ensures Last(m, c) == Server(
      LeasedState().(asyncs := map[0 := Operation(Creating, Succeeded)],
                     sessions := map[10 := Session(1, 0, KEY, Creating, Some(0), false, Some(Succeeded))]),
      map[0 := 1], 2, map[])
    ensures forall k :: 0 <= k < 6 ==> !Ends(Happened(m, c)[k])
  {
    hide ValidIdentity, Valid, Last, States, Happened;
    c := Leased(m);
    c := ThenDirect(m, c, Publish(10, Succeeded));
  }

  lemma NoReleaseWithoutEnd(s: State, e: Event, op: OperationId)
    requires !Ends(e)
    ensures forall o :: !ReleasesAs(s, e, op, o)
  {}

  lemma Done(m: Mode) returns (c: Chain)
    ensures Valid(m, c) && |Happened(m, c)| == 8 && |States(m, c)| == 9
    ensures Last(m, c) == Server(DoneState(), map[0 := 2], 3, map[])
    ensures forall k, o :: 0 <= k < 8 ==> !ReleasesAs(States(m, c)[k], Happened(m, c)[k], 1, o)
  {
    hide ValidIdentity, Valid, Last, States, Happened, ReleasesAs;
    c := DonePublished(m);
    var b := c;
    c := ThenWrite(m, c, 0, EndLease(1, 10, Succeeded, Unset), 0);
    var ss, es := States(m, c), Happened(m, c);
    forall k | 0 <= k < 8 ensures forall o :: !ReleasesAs(ss[k], es[k], 1, o) {
      if k < 7 {
        assert es[k] == if k < 6 then Happened(m, b)[k] else Tick(0);
        NoReleaseWithoutEnd(ss[k], es[k], 1);
      } else {
        assert ss[7] == Last(m, b).store;
        OtherOperation(ss[7], es[7]);
      }
    }
  }

  /** The cluster carries operation 0, so nothing releases operation 1. */
  lemma OtherOperation(s: State, e: Event)
    requires e.Commit? && e.id == 0 && 0 in s.docs && s.docs[0].asyncId == Some(0)
    ensures forall o :: !ReleasesAs(s, e, 1, o)
  {}

  function Put(op: OperationId): Flight {
    Flight(PutOrPatch(op, RESOURCE_GROUP, 0), 0, Cluster(None, 0, 0, None, Succeeded), 2, 1000)
  }

  lemma TwoPuts(m: Mode) returns (c: Chain)
    ensures Valid(m, c) && |Happened(m, c)| == 12 && |States(m, c)| == 13
    ensures Last(m, c) == Server(
      DoneState().(asyncs := map[0 := Operation(Creating, Succeeded), 1 := Operation(Updating, Updating), 2 := Operation(Updating, Updating)]),
      map[0 := 2], 3, map[1 := Put(1), 2 := Put(2)])
    ensures forall k, o :: 0 <= k < 12 ==> !ReleasesAs(States(m, c)[k], Happened(m, c)[k], 1, o)
  {
    hide ValidIdentity, Valid, Last, States, Happened;
    c := Done(m);
    c := ThenDirect(m, c, NewAsync(1, KEY, Updating));
    c := ThenDirect(m, c, NewAsync(2, KEY, Updating));
    c := ThenBegin(m, c, 1, PutOrPatch(1, RESOURCE_GROUP, 0), 0);
    c := ThenBegin(m, c, 2, PutOrPatch(2, RESOURCE_GROUP, 0), 0);
  }

  function FirstPutStored(): State {
    State(1000,
          map[0 := Cluster(None, 0, 0, Some(1), Updating)],
          map[0 := Operation(Creating, Succeeded), 1 := Operation(Updating, Updating), 2 := Operation(Updating, Updating)],
          map[], {0}, {0, 1}, map[0 := Succeeded])
  }

  /** The first PUT is stored while the second is still in flight. */
  lemma StoreFirstPut(m: Mode) returns (c: Chain)
    requires !m.conditional
    ensures Valid(m, c) && |Happened(m, c)| == 13 && |States(m, c)| == 14
    ensures forall k, o :: 0 <= k < 13 ==> !ReleasesAs(States(m, c)[k], Happened(m, c)[k], 1, o)
    ensures Last(m, c) == Server(FirstPutStored(), map[0 := 3], 4, map[2 := Put(2)])
  {
    hide ValidIdentity, Valid, Last, States, Happened;
    c := TwoPuts(m);
    c := ThenFinish(m, c, 1);
  }

  /** It is dequeued and its outcome published. */
  lemma FirstPutPublished(m: Mode) returns (c: Chain)
    requires !m.conditional
    ensures Valid(m, c) && |Happened(m, c)| == 16 && |States(m, c)| == 17
    ensures forall k, o :: 0 <= k < 16 ==> !ReleasesAs(States(m, c)[k], Happened(m, c)[k], 1, o)
    ensures Last(m, c).flights == map[2 := Put(2)] && 0 in Last(m, c).etags
    ensures Last(m, c).store.docs == map[0 := Cluster(Some(1), 61, 1, Some(1), Updating)]
    ensures Last(m, c).store.asyncs == FirstPutStored().asyncs[1 := Operation(Updating, Succeeded)]
    ensures Last(m, c).store.carried == {0, 1}
  {
    hide ValidIdentity, Valid, Last, States, Happened;
    c := StoreFirstPut(m);
    c := ThenWrite(m, c, 3, Dequeue(1, 11), 0);
    assert Last(m, c).store.sessions == map[11 := Session(1, 0, KEY, Updating, Some(1), false, None)];
    c := ThenDirect(m, c, Publish(11, Succeeded));
  }

  /** Operation 1 is reported Succeeded although no EndLease or removal released it. */
  lemma PrematureReveal(m: Mode) returns (c: Chain)
    requires !m.conditional
    ensures Valid(m, c) && !RevealsOnlyReleased(States(m, c), Happened(m, c))
  {
    hide ValidIdentity, Valid, Last, States, Happened;
    c := FirstPutPublished(m);
    c := ThenFinish(m, c, 2);
    var ss, es, s := States(m, c), Happened(m, c), Last(m, c).store;
    assert s.docs[0].asyncId == Some(2) && s.asyncs[1] == Operation(Updating, Succeeded);
    var doc := Some(s.docs[0]);
    assert Reads(s, s.asyncs[1].key, doc) && Status(s.asyncs[1], doc, 1) == Succeeded;
    assert ss[17] == s && forall k, o :: 0 <= k < 17 ==> !ReleasesAs(ss[k], es[k], 1, o);
  }

  /** A cluster that is Deleting becomes Updating. */
  lemma DeletionOverwritten(m: Mode) returns (c: Chain)
    requires !m.conditional
    ensures Valid(m, c) && !NeverComesBack(States(m, c))
  {
    hide ValidIdentity, Valid, Last, States, Happened;
    c := Done(m);
    c := ThenDirect(m, c, NewAsync(1, KEY, Updating));
    c := ThenDirect(m, c, NewAsync(2, KEY, Deleting));
    c := ThenBegin(m, c, 1, PutOrPatch(1, RESOURCE_GROUP, 0), 0);
    c := ThenWrite(m, c, 2, RequestDelete(2), 0);
    var i := |States(m, c)| - 1;
    assert Doomed(States(m, c)[i].docs[0]);
    c := ThenFinish(m, c, 1);
    assert States(m, c)[i].docs[0].state.Deleting? && States(m, c)[i + 1].docs[0].state.Updating?;
  }

  // ---- two sessions of one process on one key ----

  /** Worker 2 has taken over and ended the lease, while session 10 of worker 1 is still running. */
  function TakenOver(): State {
    State(62_000,
          map[0 := Cluster(None, 0, 0, None, Succeeded)],
          map[0 := Operation(Creating, Succeeded)],
          map[10 := Session(1, 0, KEY, Creating, Some(0), false, None)],
          {0}, {0}, map[0 := Succeeded])
  }

  lemma TakeOverPublished(m: Mode) returns (c: Chain)
    ensures Valid(m, c) && |Happened(m, c)| == 9 && |States(m, c)| == 10
    ensures Last(m, c) == Server(
      LeasedState().(now := 62_000,
                     docs := map[0 := Cluster(Some(2), 122, 2, Some(0), Creating)],
                     asyncs := map[0 := Operation(Creating, Succeeded)],
                     sessions := LeasedState().sessions[11 := Session(2, 0, KEY, Creating, Some(0), false, Some(Succeeded))]),
      map[0 := 2], 3, map[])
  {
    hide ValidIdentity, Valid, Last, States, Happened;
    c := Leased(m);
    c := SecondDequeue(m, c);
    c := ThenDirect(m, c, Publish(11, Succeeded));
  }

  lemma TakeOver(m: Mode) returns (c: Chain)
    ensures Valid(m, c) && |Happened(m, c)| == 11 && |States(m, c)| == 12
    ensures ReleasesAs(States(m, c)[10], Happened(m, c)[10], 0, Succeeded)
    ensures Last(m, c) == Server(TakenOver(), map[0 := 3], 4, map[])
  {
    hide ValidIdentity, Valid, Last, States, Happened;
    c := TakeOverPublished(m);
    c := ThenWrite(m, c, 0, EndLease(2, 11, Succeeded, Unset), 0);
    assert Last(m, c).store.sessions == TakenOver().sessions;
    assert Carries(States(m, c)[10], 0, 0);
  }

  /** Worker 1 dequeues the cluster again, now for deletion. */
  function Reacquired(): State {
    State(62_000,
          map[0 := Cluster(Some(1), 122, 1, Some(1), Deleting)],
          map[0 := Operation(Creating, Succeeded), 1 := Operation(Deleting, Deleting)],
          map[10 := Session(1, 0, KEY, Creating, Some(0), false, None),
              12 := Session(1, 0, KEY, Deleting, Some(1), false, None)],
          {0}, {0, 1}, map[0 := Succeeded])
  }

  lemma DeletionAnnounced(m: Mode) returns (c: Chain)
    ensures Valid(m, c) && |Happened(m, c)| == 12 && |States(m, c)| == 13
    ensures ReleasesAs(States(m, c)[10], Happened(m, c)[10], 0, Succeeded)
    ensures Last(m, c) == Server(TakenOver().(asyncs := Reacquired().asyncs), map[0 := 3], 4, map[])
  {
    hide ValidIdentity, Valid, Last, States, Happened, ReleasesAs;
    c := TakeOver(m);
    c := ThenDirect(m, c, NewAsync(1, KEY, Deleting));
  }

  lemma DeletionRequested(m: Mode) returns (c: Chain)
    ensures Valid(m, c) && |Happened(m, c)| == 14 && |States(m, c)| == 15
    ensures ReleasesAs(States(m, c)[10], Happened(m, c)[10], 0, Succeeded)
    ensures Last(m, c) == Server(
      TakenOver().(docs := map[0 := Cluster(None, 0, 0, Some(1), Deleting)],
                   asyncs := Reacquired().asyncs, carried := {0, 1}),
      map[0 := 4], 5, map[])
  {
    hide ValidIdentity, Valid, Last, States, Happened, ReleasesAs;
    c := DeletionAnnounced(m);
    c := ThenWrite(m, c, 0, RequestDelete(1), 0);
  }

  lemma Reacquire(m: Mode) returns (c: Chain)
    requires !m.oneSession
    ensures Valid(m, c) && |Happened(m, c)| == 16 && |States(m, c)| == 17
    ensures ReleasesAs(States(m, c)[10], Happened(m, c)[10], 0, Succeeded)
    ensures Last(m, c) == Server(Reacquired(), map[0 := 5], 6, map[]) && States(m, c)[16] == Reacquired()
  {
    hide ValidIdentity, Valid, Last, States, Happened;
    c := DeletionRequested(m);
    c := ThenWrite(m, c, 0, Dequeue(1, 12), 0);
  }

  lemma OldSessionPublishes(m: Mode) returns (c: Chain)
    requires !m.oneSession
    ensures Valid(m, c) && |Happened(m, c)| == 17 && |States(m, c)| == 18 && States(m, c)[16] == Reacquired()
    ensures var v := Last(m, c);
      && v.store.docs == Reacquired().docs && 0 in v.etags && v.flights == map[]
      && 10 in v.store.sessions && v.store.sessions[10] == Session(1, 0, KEY, Creating, Some(0), false, Some(Succeeded))
  {
    hide ValidIdentity, Valid, Last, States, Happened;
    c := Reacquire(m);
    c := ThenDirect(m, c, Publish(10, Succeeded));
  }

  /** The old session ends the lease of the new one: a Deleting cluster becomes Succeeded. */
  lemma OldSessionEndsNewLease(m: Mode) returns (c: Chain)
    requires !m.oneSession
    ensures Valid(m, c) && !NeverComesBack(States(m, c))
  {
    hide ValidIdentity, Valid, Last, States, Happened;
    c := OldSessionPublishes(m);
    c := ThenWrite(m, c, 0, EndLease(1, 10, Succeeded, Unset), 0);
    assert Last(m, c).store.docs[0].state == Succeeded;
    assert States(m, c)[16] == Reacquired() && States(m, c)[19] == Last(m, c).store;
  }

  // ---- outcomes that change after they are committed ----

  lemma OldSessionRewritesOutcome(m: Mode) returns (c: Chain)
    requires !m.oneSession
    ensures Valid(m, c) && !OutcomesAreFinal(States(m, c), Happened(m, c))
  {
    hide ValidIdentity, Valid, Last, States, Happened;
    c := Reacquire(m);
    c := ThenDirect(m, c, Publish(10, Failed));
    var ss, es := States(m, c), Happened(m, c);
    assert ReleasesAs(ss[10], es[10], 0, Succeeded) && ss[17].asyncs[0].state == Failed;
  }

  lemma StaleWorkerRewritesOutcome(m: Mode) returns (c: Chain)
    requires !m.noStaleWrites
    ensures Valid(m, c) && !OutcomesAreFinal(States(m, c), Happened(m, c))
  {
    hide ValidIdentity, Valid, Last, States, Happened;
    c := TakeOver(m);
    c := ThenDirect(m, c, Publish(10, Failed));
    var ss, es := States(m, c), Happened(m, c);
    assert ReleasesAs(ss[10], es[10], 0, Succeeded) && ss[12].asyncs[0].state == Failed;
  }

  /** Session 10 is about to commit Failed when its lease expires and worker 2 publishes Succeeded. */
  lemma EndBegun(m: Mode) returns (c: Chain)
    ensures Valid(m, c) && |Happened(m, c)| == 10 && |States(m, c)| == 11
    ensures Last(m, c) == Server(
      State(62_000,
            map[0 := Cluster(Some(2), 122, 2, Some(0), Creating)],
            map[0 := Operation(Creating, Failed)],
            map[10 := Session(1, 0, KEY, Creating, Some(0), false, Some(Failed)),
                11 := Session(2, 0, KEY, Creating, Some(0), false, None)],
            {0}, {0}, map[]),
      map[0 := 2], 3,
      map[1 := Flight(EndLease(1, 10, Failed, Creating), 0, Cluster(Some(1), 61, 1, Some(0), Creating), 1, 1000)])
  {
    hide ValidIdentity, Valid, Last, States, Happened;
    c := Leased(m);
    c := ThenDirect(m, c, Publish(10, Failed));
    assert Last(m, c).store.docs == LeasedState().docs;
    c := ThenBegin(m, c, 1, EndLease(1, 10, Failed, Creating), 0);
    c := SecondDequeue(m, c);
  }

  lemma StaleEndLease(m: Mode) returns (c: Chain)
    requires !m.conditional
    ensures Valid(m, c) && !OutcomesAreFinal(States(m, c), Happened(m, c))
  {
    hide ValidIdentity, Valid, Last, States, Happened;
    c := EndBegun(m);
    c := ThenDirect(m, c, Publish(11, Succeeded));
    assert Last(m, c).store.asyncs == map[0 := Operation(Creating, Succeeded)];
    c := ThenFinish(m, c, 1);
    var ss, es := States(m, c), Happened(m, c);
    assert ReleasesAs(ss[11], es[11], 0, Failed) && ss[12].asyncs[0].state == Succeeded;
  }

  // ---- nil options: a stale EndLease undoes a patch ----

  lemma PatchBeforeEnd(m: Mode) returns (c: Chain)
    ensures Valid(m, c) && |Happened(m, c)| == 9 && |States(m, c)| == 10
    ensures Happened(m, c)[8] == Commit(PatchWithLease(1, SetContent(7)), 0)
    ensures var v := Last(m, c);
      && v.flights == map[1 := Flight(EndLease(1, 10, Failed, Creating), 0, Cluster(Some(1), 61, 1, Some(0), Creating), 1, 1000)]
      && v.store.docs == map[0 := Cluster(Some(1), 61, 1, Some(0), Creating).(content := 7)] && 0 in v.etags
      && v.store.sessions == map[10 := Session(1, 0, KEY, Creating, Some(0), false, Some(Failed))]
  {
    hide ValidIdentity, Valid, Last, States, Happened;
    c := Leased(m);
    c := ThenDirect(m, c, Publish(10, Failed));
    c := ThenBegin(m, c, 1, EndLease(1, 10, Failed, Creating), 0);
    c := ThenWrite(m, c, 2, PatchWithLease(1, SetContent(7)), 0);
  }

  lemma LostContent(m: Mode) returns (c: Chain)
    requires !m.conditional
    ensures Valid(m, c) && !ContentKept(States(m, c), Happened(m, c))
  {
    hide ValidIdentity, Valid, Last, States, Happened;
    c := PatchBeforeEnd(m);
    c := ThenFinish(m, c, 1);
    var ss, es := States(m, c), Happened(m, c);
    assert ss[10].docs[0].content == 0 && TouchesContent(es[8], 0);
    forall k: nat ensures !LastSet(es, k, 10, 0, 0) {}
  }

  // ---- the theorems with their exact conditions ----

  /** Every execution is a run of the atomic protocol exactly when nil options send If-Match. */
  lemma AtomicIffConditional(m: Mode)
    ensures (forall vs, acts :: IsExecution(m, vs, acts) ==> IsRun(m, Stores(vs), Events(vs, acts)))
       <==> m.conditional
  {
    if m.conditional {
      forall vs, acts | IsExecution(m, vs, acts) ensures IsRun(m, Stores(vs), Events(vs, acts)) {
        ConditionalExecutionsAreAtomicRuns(m, vs, acts);
      }
    } else {
      var c := EarlyTakeover(m);
      var vs, acts := ToExecution(m, c);
      if IsRun(m, Stores(vs), Events(vs, acts)) {
        RunsHaveNoEarlyTakeover(m, Stores(vs), Events(vs, acts));
      }
    }
  }

  /** Leases are never taken over early, in any execution, exactly when nil options send If-Match. */
  lemma NoEarlyTakeoverIffConditional(m: Mode)
    ensures (forall vs, acts :: IsExecution(m, vs, acts) ==> NoEarlyTakeover(Stores(vs), Events(vs, acts)))
       <==> m.conditional
  {
    if m.conditional {
      forall vs, acts | IsExecution(m, vs, acts) ensures NoEarlyTakeover(Stores(vs), Events(vs, acts)) {
        NoEarlyTakeoverWhenConditional(m, vs, acts);
      }
    } else {
      var c := EarlyTakeover(m);
      var _, _ := ToExecution(m, c);
    }
  }

  lemma CounterIsExactIffConditional(m: Mode)
    ensures (forall vs, acts :: IsExecution(m, vs, acts) ==> CounterIsExact(Stores(vs), Events(vs, acts)))
       <==> m.conditional
  {
    if m.conditional {
      forall vs, acts | IsExecution(m, vs, acts) ensures CounterIsExact(Stores(vs), Events(vs, acts)) {
        CounterIsExactWhenConditional(m, vs, acts);
      }
    } else {
      var c := LostDequeue(m);
      var _, _ := ToExecution(m, c);
    }
  }

  /** The limit on handouts holds in all executions exactly when nil options send If-Match. */
  lemma BoundedHandoutsIffConditional(m: Mode)
    ensures (forall vs, acts :: IsExecution(m, vs, acts) ==> BoundedHandouts(Stores(vs), Events(vs, acts)))
       <==> m.conditional
  {
    if m.conditional {
      forall vs, acts | IsExecution(m, vs, acts) ensures BoundedHandouts(Stores(vs), Events(vs, acts)) {
        HandoutsAreBoundedWhenConditional(m, vs, acts);
      }
    } else {
      var c := SixHandouts(m);
      var _, _ := ToExecution(m, c);
    }
  }

  /** Nothing that was stored in a document is lost in any execution exactly when nil options send If-Match. */
  lemma ContentKeptIffConditional(m: Mode)
    ensures (forall vs, acts :: IsExecution(m, vs, acts) ==> ContentKept(Stores(vs), Events(vs, acts)))
       <==> m.conditional
  {
    if m.conditional {
      forall vs, acts | IsExecution(m, vs, acts) ensures ContentKept(Stores(vs), Events(vs, acts)) {
        NoContentIsLost(m, vs, acts);
      }
    } else {
      var c := LostContent(m);
      var _, _ := ToExecution(m, c);
    }
  }

  lemma RevealsOnlyReleasedIffConditional(m: Mode)
    ensures (forall vs, acts :: IsExecution(m, vs, acts) ==> RevealsOnlyReleased(Stores(vs), Events(vs, acts)))
       <==> m.conditional
  {
    if m.conditional {
      forall vs, acts | IsExecution(m, vs, acts) ensures RevealsOnlyReleased(Stores(vs), Events(vs, acts)) {
        RevealsOnlyReleasedWhenConditional(m, vs, acts);
      }
    } else {
      var c := PrematureReveal(m);
      var _, _ := ToExecution(m, c);
    }
  }

  lemma NeverComesBackIff(m: Mode)
    ensures (forall vs, acts :: IsExecution(m, vs, acts) ==> NeverComesBack(Stores(vs)))
       <==> m.conditional && m.oneSession
  {
    if m.conditional && m.oneSession {
      forall vs, acts | IsExecution(m, vs, acts) ensures NeverComesBack(Stores(vs)) {
        DoomedClustersNeverComeBack(m, vs, acts);
      }
    } else if !m.conditional {
      var c := DeletionOverwritten(m);
      var _, _ := ToExecution(m, c);
    } else {
      var c := OldSessionEndsNewLease(m);
      var _, _ := ToExecution(m, c);
    }
  }

  lemma OutcomesAreFinalIff(m: Mode)
    ensures (forall vs, acts :: IsExecution(m, vs, acts) ==> OutcomesAreFinal(Stores(vs), Events(vs, acts)))
       <==> m.conditional && m.oneSession && m.noStaleWrites
  {
    if m == Mode(true, true, true) {
      forall vs, acts | IsExecution(m, vs, acts) ensures OutcomesAreFinal(Stores(vs), Events(vs, acts)) {
        OutcomesAreFinalWhenLeasesAreRespected(m, vs, acts);
      }
    } else if !m.conditional {
      var c := StaleEndLease(m);
      var _, _ := ToExecution(m, c);
    } else if !m.oneSession {
      var c := OldSessionRewritesOutcome(m);
      var _, _ := ToExecution(m, c);
    } else {
      var c := StaleWorkerRewritesOutcome(m);
      var _, _ := ToExecution(m, c);
    }
  }
}
