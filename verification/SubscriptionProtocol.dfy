/**
 The protocol on subscription documents: PUT by the front end, and Dequeue,
 heartbeat, deletion pass and EndLease by the backends.  Every read and every
 write is a step of its own, and other clients write to the clusters in between.

 As the source has it, Lease and EndLease lose the options they ask for, so they
 run no trigger, and like PUT they are conditional only if nil options are.
 */
module SubscriptionProtocol {
  import opened Wrappers
  import opened Documents
  import Database

  type SubscriptionId = nat

  datatype SubscriptionState = Registered | Unregistered | Warned | Suspended | Deleted | Invalid

  datatype Subscription = Subscription(
    state: SubscriptionState,
    deleting: bool,
    leaseOwner: Option<Uuid>,
    leaseExpires: nat,
    dequeues: nat)

  datatype Write =
    | Put(state: SubscriptionState)
    | Dequeue(uuid: Uuid, session: SessionId)
    | Lease(uuid: Uuid)
    | EndLease(uuid: Uuid, session: SessionId, done: bool, retryLater: bool)

  const BLANK := Subscription(Invalid, false, None, 0, 0)

  // ---- what each writer makes of the document it has read ----

  function EditPut(doc: Subscription, state: SubscriptionState): Option<Subscription> {
    if state.Invalid? then None
    else if doc.state.Deleted? && !state.Deleted? then None
    else Some(doc.(state := state, deleting := doc.deleting || state.Deleted?))
  }

  function EditEndLease(doc: Subscription, done: bool, retryLater: bool): Subscription {
    doc.(deleting := doc.deleting && !done,
         leaseOwner := None,
         leaseExpires := 0,
         dequeues := if done || retryLater then 0 else doc.dequeues)
  }

  /** `None` when the writer gives up; only PUT goes on when there is no document. */
  function Edit(w: Write, base: Option<Subscription>): Option<Subscription> {
    match w
    case Put(state) => EditPut(if base.None? then BLANK else base.value, state)
    case Dequeue(u, _) =>
      if base.None? then None
      else Some(base.value.(leaseOwner := Some(u), dequeues := base.value.dequeues + 1))
    case Lease(u) => if base.None? || base.value.leaseOwner != Some(u) then None else base
    case EndLease(u, _, done, later) =>
      if base.None? || base.value.leaseOwner != Some(u) then None
      else Some(EditEndLease(base.value, done, later))
  }

  /** The filter of the Dequeue query. */
  predicate Eligible(doc: Subscription, now: nat) {
    doc.deleting && doc.leaseExpires * 1000 < now
  }

  function Stamp(w: Write, doc: Subscription, now: nat): Subscription {
    if w.Dequeue? then doc.(leaseExpires := now / 1000 + LEASE_SECONDS) else doc
  }

  // ---- states ----

  datatype Versioned = Versioned(doc: Subscription, etag: nat)

  /** A write under way: what its read found, and the document it will send. */
  datatype Flight = Flight(write: Write, id: SubscriptionId, base: Option<Versioned>, body: Subscription)

  /**
   A worker on a subscription.  Its pass has listed clusters, of which the first
   `patched` are written; `pending` is the cluster document it is about to write
   and the ETag it read; `ended` is the arguments it calls endLease with.
   */
  datatype Session = Session(
    uuid: Uuid,
    id: SubscriptionId,
    listed: seq<DocId>,
    patched: nat,
    pending: Option<Database.Versioned>,
    done: bool,
    ended: Option<(bool, bool)>)

  datatype State = State(
    now: nat,
    nextETag: nat,
    docs: map<SubscriptionId, Versioned>,
    flights: map<nat, Flight>,
    sessions: map<SessionId, Session>,
    clusters: map<DocId, Database.Versioned>)

  datatype Event =
    | Tick(ms: nat)
    | Read(flight: nat, write: Write, id: SubscriptionId)
    | Commit(flight: nat)                               // the store accepts the write
    | Lose(flight: nat)                                 // it refuses it, or the process dies
    | List(session: SessionId, page: seq<DocId>)
    | ReadCluster(session: SessionId)
    | CommitCluster(session: SessionId)
    | Retry(session: SessionId)                         // the store refused the cluster write
    | Finish(session: SessionId)
    | GiveUp(session: SessionId)                        // any error in the pass
    | Foreign(cluster: DocId, doc: Option<Document>)    // others write or remove a cluster

  predicate Init(s: State) {
    s == State(s.now, s.nextETag, map[], map[], map[], map[])
  }

  function Find(s: State, id: SubscriptionId): Option<Versioned> {
    if id in s.docs then Some(s.docs[id]) else None
  }

  function Doc(v: Option<Versioned>): Option<Subscription> {
    if v.None? then None else Some(v.value.doc)
  }

  predicate Guard(s: State, w: Write, id: SubscriptionId) {
    match w
    case Put(_) => true
    case Lease(_) => true
    case Dequeue(_, _) => id in s.docs && Eligible(s.docs[id].doc, s.now)
    case EndLease(u, x, done, later) =>
      && x in s.sessions && s.sessions[x].uuid == u && s.sessions[x].id == id
      && s.sessions[x].ended == Some((done, later))
  }

  predicate MayCommit(conditional: bool, s: State, f: Flight) {
    && (f.write.Dequeue? ==> f.write.session !in s.sessions)
    && (if f.base.None? then f.id !in s.docs
        else f.id in s.docs && (conditional || f.write.Dequeue? ==> s.docs[f.id].etag == f.base.value.etag))
  }

  predicate Working(s: State, x: SessionId) {
    x in s.sessions && s.sessions[x].ended.None?
  }

  /** The cluster that the pass of session `x` is at. */
  predicate AtCluster(s: State, x: SessionId) {
    Working(s, x) && s.sessions[x].patched < |s.sessions[x].listed|
  }

  function Current(s: State, x: SessionId): DocId
    requires AtCluster(s, x)
  {
    s.sessions[x].listed[s.sessions[x].patched]
  }

  predicate Enabled(conditional: bool, s: State, e: Event) {
    match e
    case Tick(_) => true
    case Read(f, w, id) => f !in s.flights && Guard(s, w, id) && Edit(w, Doc(Find(s, id))).Some?
    case Commit(f) => f in s.flights && MayCommit(conditional, s, s.flights[f])
    case Lose(f) => f in s.flights
    case List(x, _) => Working(s, x) && s.sessions[x].patched == |s.sessions[x].listed|
    case ReadCluster(x) =>
      && AtCluster(s, x) && s.sessions[x].pending.None? && Current(s, x) in s.clusters
      && EditSubscriptionDelete(s.clusters[Current(s, x)].doc).Edited?
    case CommitCluster(x) =>
      && AtCluster(s, x) && s.sessions[x].pending.Some? && Current(s, x) in s.clusters
      && (conditional ==> s.clusters[Current(s, x)].etag == s.sessions[x].pending.value.etag)
    case Retry(x) => AtCluster(s, x) && s.sessions[x].pending.Some?
    case Finish(x) => Working(s, x) && s.sessions[x].patched == |s.sessions[x].listed|
    case GiveUp(x) => Working(s, x)
    case Foreign(_, _) => true
  }

  function NewSession(w: Write, id: SubscriptionId, doc: Subscription): Session
    requires w.Dequeue?
  {
    Session(w.uuid, id, [], 0, None, true, if doc.dequeues > MAX_DEQUEUE_COUNT then Some((false, true)) else None)
  }

  function Stored(s: State, f: Flight): Subscription {
    Stamp(f.write, f.body, s.now)
  }

  predicate IsPass(e: Event) {
    e.List? || e.ReadCluster? || e.CommitCluster? || e.Retry? || e.Finish? || e.GiveUp?
  }

  function AfterPass(s: State, e: Event): State
    requires IsPass(e) && Enabled(false, s, e)
  {
    var session := s.sessions[e.session];
    match e
    case List(x, page) => s.(sessions := s.sessions[x := session.(listed := session.listed + page)])
    case ReadCluster(x) =>
      var v := s.clusters[Current(s, x)];
      var edited := EditSubscriptionDelete(v.doc).doc;
      s.(sessions := s.sessions[x := session.(pending := Some(Database.Versioned(edited, v.etag)),
                                              done := session.done && !Busy(v.doc))])
    case CommitCluster(x) =>
      s.(clusters := s.clusters[Current(s, x) := Database.Versioned(session.pending.value.doc, s.nextETag)],
         nextETag := s.nextETag + 1,
         sessions := s.sessions[x := session.(pending := None, patched := session.patched + 1)])
    case Retry(x) => s.(sessions := s.sessions[x := session.(pending := None)])
    case Finish(x) => s.(sessions := s.sessions[x := session.(ended := Some((session.done, !session.done)))])
    case GiveUp(x) => s.(sessions := s.sessions[x := session.(ended := Some((false, false)))])
  }

  function After(conditional: bool, s: State, e: Event): State
    requires Enabled(conditional, s, e)
  {
    match e
    case Tick(ms) => s.(now := s.now + ms)
    case Read(f, w, id) =>
      s.(flights := s.flights[f := Flight(w, id, Find(s, id), Edit(w, Doc(Find(s, id))).value)])
    case Commit(f) =>
      var flight := s.flights[f];
      var doc := Stored(s, flight);
      s.(docs := s.docs[flight.id := Versioned(doc, s.nextETag)],
         nextETag := s.nextETag + 1,
         flights := s.flights - {f},
         sessions := if flight.write.Dequeue?
           then s.sessions[flight.write.session := NewSession(flight.write, flight.id, doc)]
           else s.sessions)
    case Lose(f) => s.(flights := s.flights - {f})
    case Foreign(c, doc) =>
      s.(clusters := if doc.None? then s.clusters - {c} else s.clusters[c := Database.Versioned(doc.value, s.nextETag)],
         nextETag := s.nextETag + 1)
    case _ => AfterPass(s, e)
  }

  ghost predicate IsRun(conditional: bool, ss: seq<State>, es: seq<Event>) {
    && |ss| == |es| + 1
    && Init(ss[0])
    && forall i :: 0 <= i < |es| ==> Enabled(conditional, ss[i], es[i]) && ss[i + 1] == After(conditional, ss[i], es[i])
  }

  // ---- what every step keeps ----

  /** A flight whose ETag is still current was computed from the current document. */
  ghost predicate FlightInv(s: State, f: Flight) {
    && Edit(f.write, Doc(f.base)) == Some(f.body)
    && (f.write.Dequeue? ==> f.base.Some? && f.base.value.doc.deleting)
    && (f.base.Some? ==> f.base.value.etag < s.nextETag && f.id in s.docs)
    && (f.base.Some? && s.docs[f.id].etag == f.base.value.etag ==> s.docs[f.id] == f.base.value)
    && (f.write.EndLease? ==>
          && f.write.session in s.sessions && s.sessions[f.write.session].id == f.id
          && s.sessions[f.write.session].uuid == f.write.uuid
          && s.sessions[f.write.session].ended == Some((f.write.done, f.write.retryLater)))
  }

  ghost predicate SessionInv(session: Session) {
    && session.patched <= |session.listed|
    && (session.done && session.pending.Some? ==> session.pending.value.doc.state.Deleting?)
    && (session.ended.Some? && session.ended.value.0 ==>
          session.ended == Some((true, false)) && session.done && session.patched == |session.listed|)
  }

  ghost predicate Inv(s: State) {
    && (forall id :: id in s.docs ==> s.docs[id].etag < s.nextETag)
    && (forall f :: f in s.flights ==> FlightInv(s, s.flights[f]))
    && (forall x :: x in s.sessions ==> SessionInv(s.sessions[x]))
  }

  lemma PassKeepsFlight(s: State, e: Event, f: Flight)
    requires FlightInv(s, f) && IsPass(e) && Enabled(false, s, e)
    ensures FlightInv(AfterPass(s, e), f)
  {
    hide Edit, EditSubscriptionDelete;
  }

  lemma PassKeepsSessions(s: State, e: Event)
    requires (forall x :: x in s.sessions ==> SessionInv(s.sessions[x])) && IsPass(e) && Enabled(false, s, e)
    ensures var t := AfterPass(s, e); forall x :: x in t.sessions ==> SessionInv(t.sessions[x])
  {
    var t := AfterPass(s, e);
    forall x | x in t.sessions ensures SessionInv(t.sessions[x]) {
      assert SessionInv(s.sessions[x]);
    }
  }

  lemma PassKeepsInv(s: State, e: Event)
    requires Inv(s) && IsPass(e) && Enabled(false, s, e)
    ensures Inv(AfterPass(s, e))
  {
    hide Edit, FlightInv, SessionInv, EditSubscriptionDelete;
    var t := AfterPass(s, e);
    PassKeepsSessions(s, e);
    forall f | f in t.flights ensures FlightInv(t, t.flights[f]) {
      PassKeepsFlight(s, e, s.flights[f]);
    }
  }

  lemma StepKeepsInv(conditional: bool, s: State, e: Event)
    requires Inv(s) && Enabled(conditional, s, e)
    ensures Inv(After(conditional, s, e))
  {
    hide Edit;
    var t := After(conditional, s, e);
    match e
    case Tick(_) =>
    case Read(_, _, _) =>
    case Lose(_) =>
    case Foreign(_, _) =>
    case Commit(c) =>
      forall f | f in t.flights ensures FlightInv(t, t.flights[f]) {
        assert FlightInv(s, s.flights[f]);
      }
      forall x | x in t.sessions ensures SessionInv(t.sessions[x]) {}
    case _ => PassKeepsInv(s, e);
  }

  lemma {:induction false} RunKeepsInv(conditional: bool, ss: seq<State>, es: seq<Event>, n: nat)
    requires IsRun(conditional, ss, es) && n < |ss|
    ensures Inv(ss[n])
  {
    if n > 0 {
      RunKeepsInv(conditional, ss, es, n - 1);
      StepKeepsInv(conditional, ss[n - 1], es[n - 1]);
    }
  }

  // ---- conditional writes ----

  predicate Commits(s: State, e: Event, id: SubscriptionId) {
    e.Commit? && e.flight in s.flights && s.flights[e.flight].id == id
  }

  /** With If-Match, a committed write is its edit of the document it replaces. */
  lemma CommitIsAtomic(s: State, e: Event, id: SubscriptionId)
    requires Inv(s) && Enabled(true, s, e) && id in s.docs
    ensures id in After(true, s, e).docs
    ensures !Commits(s, e, id) ==> After(true, s, e).docs[id] == s.docs[id]
    ensures Commits(s, e, id) ==>
      var w := s.flights[e.flight].write;
      && Edit(w, Some(s.docs[id].doc)).Some?
      && After(true, s, e).docs[id].doc == Stamp(w, Edit(w, Some(s.docs[id].doc)).value, s.now)
  {
    hide Edit;
    if e.Commit? {
      assert FlightInv(s, s.flights[e.flight]);
    }
  }

  /** With If-Match, a subscription stored as Deleted stays Deleted in every run. */
  lemma {:induction false} DeletedStaysDeleted(ss: seq<State>, es: seq<Event>, i: nat, j: nat, id: SubscriptionId)
    requires IsRun(true, ss, es) && i <= j < |ss|
    requires id in ss[i].docs && ss[i].docs[id].doc.state.Deleted?
    ensures id in ss[j].docs && ss[j].docs[id].doc.state.Deleted?
  {
    hide Enabled, After, Inv, Edit;
    if i < j {
      DeletedStaysDeleted(ss, es, i, j - 1, id);
      RunKeepsInv(true, ss, es, j - 1);
      var s, e := ss[j - 1], es[j - 1];
      CommitIsAtomic(s, e, id);
      if Commits(s, e, id) {
        EditKeepsDeleted(s.flights[e.flight].write, s.docs[id].doc);
      }
    }
  }

  lemma EditKeepsDeleted(w: Write, doc: Subscription)
    requires doc.state.Deleted? && Edit(w, Some(doc)).Some?
    ensures Edit(w, Some(doc)).value.state.Deleted?
  {}

  // ---- the Deleting flag ----

  /** In event `k`, session `x` stores cluster `c` as Deleting. */
  ghost predicate StoresDeleting(ss: seq<State>, es: seq<Event>, k: nat, x: SessionId, c: DocId)
    requires |ss| == |es| + 1
  {
    && k < |es| && es[k] == CommitCluster(x)
    && AtCluster(ss[k], x) && Current(ss[k], x) == c
    && c in ss[k + 1].clusters && ss[k + 1].clusters[c].doc.state.Deleting?
  }

  /** A cluster counts as patched because it already did, or because it is stored as Deleting right now. */
  lemma PatchStep(conditional: bool, s: State, e: Event, x: SessionId, i: nat)
    requires Inv(s) && Enabled(conditional, s, e)
    requires x in After(conditional, s, e).sessions && After(conditional, s, e).sessions[x].done
    requires i < After(conditional, s, e).sessions[x].patched
    ensures x in s.sessions && s.sessions[x].done && i < |s.sessions[x].listed|
    ensures i < |After(conditional, s, e).sessions[x].listed|
    ensures After(conditional, s, e).sessions[x].listed[i] == s.sessions[x].listed[i]
    ensures
      || i < s.sessions[x].patched
      || (&& e == CommitCluster(x) && AtCluster(s, x) && i == s.sessions[x].patched
          && After(conditional, s, e).clusters[Current(s, x)].doc.state.Deleting?)
  {
    hide Edit, FlightInv, EditSubscriptionDelete;
    assert x in s.sessions;
    assert SessionInv(s.sessions[x]);
  }

  lemma {:induction false} PatchedWereDeleting(conditional: bool, ss: seq<State>, es: seq<Event>, n: nat, x: SessionId, i: nat)
    requires IsRun(conditional, ss, es) && n < |ss|
    requires x in ss[n].sessions && ss[n].sessions[x].done && i < ss[n].sessions[x].patched
    ensures i < |ss[n].sessions[x].listed|
    ensures exists k: nat :: k < n && StoresDeleting(ss, es, k, x, ss[n].sessions[x].listed[i])
  {
    assert n > 0;
    RunKeepsInv(conditional, ss, es, n - 1);
    PatchStep(conditional, ss[n - 1], es[n - 1], x, i);
    if i < ss[n - 1].sessions[x].patched {
      PatchedWereDeleting(conditional, ss, es, n - 1, x, i);
    } else {
      assert StoresDeleting(ss, es, n - 1, x, ss[n].sessions[x].listed[i]);
    }
  }

  /**
   Before state `n`, session `x` of subscription `id` reached the end of its list
   with `done`, having stored every cluster on the list as Deleting.
   */
  ghost predicate PassCompleted(ss: seq<State>, es: seq<Event>, n: nat, x: SessionId, id: SubscriptionId)
    requires |ss| == |es| + 1 && n < |ss|
  {
    && x in ss[n].sessions
    && var session := ss[n].sessions[x];
      && session.id == id && session.done && session.patched == |session.listed|
      && session.ended == Some((true, false))
      && (exists k :: 0 <= k < n && es[k] == Finish(x))
      && forall c :: c in session.listed ==> exists k: nat :: k < n && StoresDeleting(ss, es, k, x, c)
  }

  predicate ClearsFlag(s: State, t: State, id: SubscriptionId) {
    id in s.docs && s.docs[id].doc.deleting && id in t.docs && !t.docs[id].doc.deleting
  }

  /** Event `n` is the EndLease with `done` of a session that has completed its pass. */
  ghost predicate EndsPass(ss: seq<State>, es: seq<Event>, n: nat, x: SessionId, id: SubscriptionId)
    requires |ss| == |es| + 1 && n < |es|
  {
    && PassCompleted(ss, es, n, x, id)
    && Commits(ss[n], es[n], id)
    && ss[n].flights[es[n].flight].write == Write.EndLease(ss[n].sessions[x].uuid, x, true, false)
  }

  lemma {:induction false} DoneMeansFinished(conditional: bool, ss: seq<State>, es: seq<Event>, n: nat, x: SessionId)
    requires IsRun(conditional, ss, es) && n < |ss|
    requires x in ss[n].sessions && ss[n].sessions[x].ended.Some? && ss[n].sessions[x].ended.value.0
    ensures exists k :: 0 <= k < n && es[k] == Finish(x)
  {
    hide Enabled, After;
    assert n > 0;
    if es[n - 1] != Finish(x) {
      EndedStep(conditional, ss[n - 1], es[n - 1], x);
      DoneMeansFinished(conditional, ss, es, n - 1, x);
    }
  }

  lemma EndedStep(conditional: bool, s: State, e: Event, x: SessionId)
    requires Enabled(conditional, s, e) && e != Finish(x)
    requires x in After(conditional, s, e).sessions
    requires After(conditional, s, e).sessions[x].ended.Some? && After(conditional, s, e).sessions[x].ended.value.0
    ensures x in s.sessions && s.sessions[x].ended.Some? && s.sessions[x].ended.value.0
  {
    hide Edit, EditSubscriptionDelete;
  }

  lemma DonePassCompleted(conditional: bool, ss: seq<State>, es: seq<Event>, n: nat, x: SessionId)
    requires IsRun(conditional, ss, es) && n < |ss|
    requires x in ss[n].sessions && ss[n].sessions[x].ended.Some? && ss[n].sessions[x].ended.value.0
    ensures PassCompleted(ss, es, n, x, ss[n].sessions[x].id)
  {
    hide Enabled, After;
    RunKeepsInv(conditional, ss, es, n);
    DoneMeansFinished(conditional, ss, es, n, x);
    var session := ss[n].sessions[x];
    assert SessionInv(session);
    forall c | c in session.listed ensures exists k: nat :: k < n && StoresDeleting(ss, es, k, x, c) {
      var i :| 0 <= i < |session.listed| && session.listed[i] == c;
      PatchedWereDeleting(conditional, ss, es, n, x, i);
    }
  }

  /** With If-Match, the Deleting flag is cleared only by the EndLease of a session that has completed its pass. */
  lemma FlagClearedAfterPass(ss: seq<State>, es: seq<Event>, n: nat, id: SubscriptionId)
    requires IsRun(true, ss, es) && n < |es| && ClearsFlag(ss[n], ss[n + 1], id)
    ensures exists x :: EndsPass(ss, es, n, x, id)
  {
    RunKeepsInv(true, ss, es, n);
    CommitIsAtomic(ss[n], es[n], id);
    var f := ss[n].flights[es[n].flight];
    assert FlightInv(ss[n], f);
    DonePassCompleted(true, ss, es, n, f.write.session);
    assert EndsPass(ss, es, n, f.write.session, id);
  }

  // ---- the lease that is not renewed ----

  predicate CommitsDequeue(s: State, e: Event, id: SubscriptionId) {
    Commits(s, e, id) && s.flights[e.flight].write.Dequeue?
  }

  predicate CommitsEndLease(s: State, e: Event, id: SubscriptionId) {
    Commits(s, e, id) && s.flights[e.flight].write.EndLease?
  }

  /** Nothing stored or about to be stored for `id` expires after `t`, except by a Dequeue. */
  ghost predicate ExpiresBy(s: State, id: SubscriptionId, t: nat) {
    && (id in s.docs ==> s.docs[id].doc.leaseExpires <= t)
    && (forall f :: f in s.flights && s.flights[f].id == id ==> s.flights[f].body.leaseExpires <= t)
  }

  lemma ExpiryStep(conditional: bool, s: State, e: Event, id: SubscriptionId, t: nat)
    requires Enabled(conditional, s, e) && ExpiresBy(s, id, t) && !CommitsDequeue(s, e, id)
    ensures ExpiresBy(After(conditional, s, e), id, t)
  {
    hide EditSubscriptionDelete;
  }

  lemma ExpiryStepAnyway(conditional: bool, s: State, e: Event, id: SubscriptionId)
    requires Enabled(conditional, s, e) && ExpiresBy(s, id, s.now / 1000 + LEASE_SECONDS)
    ensures ExpiresBy(After(conditional, s, e), id, s.now / 1000 + LEASE_SECONDS)
    ensures s.now <= After(conditional, s, e).now
  {
    hide EditSubscriptionDelete;
  }

  lemma {:induction false} RunExpires(conditional: bool, ss: seq<State>, es: seq<Event>, n: nat, id: SubscriptionId)
    requires IsRun(conditional, ss, es) && n < |ss|
    ensures ExpiresBy(ss[n], id, ss[n].now / 1000 + LEASE_SECONDS)
  {
    hide Enabled, After;
    if n > 0 {
      RunExpires(conditional, ss, es, n - 1, id);
      ExpiryStepAnyway(conditional, ss[n - 1], es[n - 1], id);
    }
  }

  lemma {:induction false} ExpiryStays(conditional: bool, ss: seq<State>, es: seq<Event>, i: nat, j: nat, id: SubscriptionId)
    requires IsRun(conditional, ss, es) && i < j < |ss|
    requires forall l :: i < l < j ==> !CommitsDequeue(ss[l], es[l], id)
    ensures ExpiresBy(ss[j], id, ss[i].now / 1000 + LEASE_SECONDS)
  {
    hide Enabled, After, ExpiresBy, CommitsDequeue;
    if i + 1 < j {
      ExpiryStays(conditional, ss, es, i, j - 1, id);
      ExpiryStep(conditional, ss[j - 1], es[j - 1], id, ss[i].now / 1000 + LEASE_SECONDS);
    } else {
      RunExpires(conditional, ss, es, i, id);
      ExpiryStepAnyway(conditional, ss[i], es[i], id);
    }
  }

  /**
   In every run, conditional or not: however often the holder renews its lease, a
   subscription to be deleted can be dequeued again once 60 s have passed since
   its last Dequeue.
   */
  lemma HeartbeatsDoNotCount(conditional: bool, ss: seq<State>, es: seq<Event>, i: nat, j: nat, id: SubscriptionId)
    requires IsRun(conditional, ss, es) && i < j < |ss| && CommitsDequeue(ss[i], es[i], id)
    requires forall l :: i < l < j ==> !CommitsDequeue(ss[l], es[l], id)
    requires id in ss[j].docs && ss[j].docs[id].doc.deleting
    requires (ss[i].now / 1000 + LEASE_SECONDS) * 1000 < ss[j].now
    ensures Eligible(ss[j].docs[id].doc, ss[j].now)
  {
    hide Enabled, After;
    ExpiryStays(conditional, ss, es, i, j, id);
  }

  lemma ExpiryIsKept(s: State, e: Event, id: SubscriptionId)
    requires Inv(s) && Enabled(true, s, e) && id in s.docs && !CommitsDequeue(s, e, id) && !CommitsEndLease(s, e, id)
    ensures id in After(true, s, e).docs && After(true, s, e).docs[id].doc.leaseExpires == s.docs[id].doc.leaseExpires
  {
    hide Enabled, After, Inv;
    CommitIsAtomic(s, e, id);
  }

  lemma DequeueSetsExpiry(conditional: bool, s: State, e: Event, id: SubscriptionId)
    requires Enabled(conditional, s, e) && CommitsDequeue(s, e, id)
    ensures id in After(conditional, s, e).docs
    ensures After(conditional, s, e).docs[id].doc.leaseExpires == s.now / 1000 + LEASE_SECONDS
  {}

  /** With If-Match, that is also the earliest moment at which it can be, unless the holder ends the lease. */
  lemma {:induction false} LeaseLastsAMinute(ss: seq<State>, es: seq<Event>, i: nat, j: nat, id: SubscriptionId)
    requires IsRun(true, ss, es) && i < j < |ss| && CommitsDequeue(ss[i], es[i], id)
    requires forall l :: i < l < j ==> !CommitsDequeue(ss[l], es[l], id) && !CommitsEndLease(ss[l], es[l], id)
    ensures id in ss[j].docs && ss[j].docs[id].doc.leaseExpires == ss[i].now / 1000 + LEASE_SECONDS
    ensures Eligible(ss[j].docs[id].doc, ss[j].now) <==>
      ss[j].docs[id].doc.deleting && (ss[i].now / 1000 + LEASE_SECONDS) * 1000 < ss[j].now
  {
    hide Enabled, After, Inv, CommitsDequeue, CommitsEndLease;
    if i + 1 < j {
      LeaseLastsAMinute(ss, es, i, j - 1, id);
      RunKeepsInv(true, ss, es, j - 1);
      ExpiryIsKept(ss[j - 1], es[j - 1], id);
    } else {
      DequeueSetsExpiry(true, ss[i], es[i], id);
    }
  }

  /**
   In every run, conditional or not: a pass that asked to be retried later leaves
   a subscription that can be dequeued at once, if it is still to be deleted.
   */
  lemma RetryLaterIsAtOnce(conditional: bool, ss: seq<State>, es: seq<Event>, n: nat, id: SubscriptionId)
    requires IsRun(conditional, ss, es) && n < |es| && ss[n].now > 0 && CommitsEndLease(ss[n], es[n], id)
    requires ss[n].flights[es[n].flight].write.retryLater && !ss[n].flights[es[n].flight].write.done
    ensures id in ss[n + 1].docs
    ensures Eligible(ss[n + 1].docs[id].doc, ss[n + 1].now) <==> ss[n + 1].docs[id].doc.deleting
    ensures conditional && id in ss[n].docs ==> ss[n + 1].docs[id].doc.deleting == ss[n].docs[id].doc.deleting
  {
    RunKeepsInv(conditional, ss, es, n);
    assert FlightInv(ss[n], ss[n].flights[es[n].flight]);
    assert ss[n + 1] == After(conditional, ss[n], es[n]);
    if conditional && id in ss[n].docs {
      CommitIsAtomic(ss[n], es[n], id);
    }
  }

  // ---- the dequeue counter ----

  /** The event is an EndLease that asks for a new budget. */
  predicate RestoresBudget(s: State, e: Event, id: SubscriptionId) {
    CommitsEndLease(s, e, id) && (s.flights[e.flight].write.done || s.flights[e.flight].write.retryLater)
  }

  /** The event is a Dequeue whose session goes on to work. */
  predicate StartsPass(s: State, e: Event, id: SubscriptionId) {
    CommitsDequeue(s, e, id) && id in s.docs && s.docs[id].doc.dequeues + 1 <= MAX_DEQUEUE_COUNT
  }

  /** What a write makes of the counter and of everything else it has no business with. */
  lemma SubscriptionFootprint(w: Write, doc: Subscription, now: nat)
    requires Edit(w, Some(doc)).Some?
    ensures var d := Stamp(w, Edit(w, Some(doc)).value, now);
      && d.dequeues == (if w.Dequeue? then doc.dequeues + 1 else if w.EndLease? && (w.done || w.retryLater) then 0 else doc.dequeues)
      && d.state == (if w.Put? then w.state else doc.state)
      && (d.deleting <==> if w.Put? && w.state.Deleted? then true else if w.EndLease? && w.done then false else doc.deleting)
      && d.leaseOwner == (if w.Dequeue? then Some(w.uuid) else if w.EndLease? then None else doc.leaseOwner)
      && d.leaseExpires == (if w.Dequeue? then now / 1000 + 60 else if w.EndLease? then 0 else doc.leaseExpires)
  {}

  /** The sessions that a Dequeue starts: to work within the limit, and otherwise only to ask for a new budget. */
  lemma DequeueStartsSession(conditional: bool, s: State, e: Event, id: SubscriptionId)
    requires Inv(s) && Enabled(conditional, s, e) && CommitsDequeue(s, e, id)
    ensures var x, t := s.flights[e.flight].write.session, After(conditional, s, e);
      && id in s.docs && x !in s.sessions && x in t.sessions && t.sessions[x].id == id && t.sessions[x].listed == [] && t.sessions[x].done
      && t.sessions[x].ended == if StartsPass(s, e, id) then None else Some((false, true))
  {
    assert FlightInv(s, s.flights[e.flight]);
  }

  /** How many passes on `id` the events i..j-1 start. */
  ghost function Passes(ss: seq<State>, es: seq<Event>, id: SubscriptionId, i: nat, j: nat): nat
    requires i <= j <= |es| <= |ss|
    decreases j
  {
    if i == j then 0
    else Passes(ss, es, id, i, j - 1) + (if StartsPass(ss[j - 1], es[j - 1], id) then 1 else 0)
  }

  function Min(x: int, y: int): int {
    if x < y then x else y
  }

  lemma CounterStep(s: State, e: Event, id: SubscriptionId)
    requires Inv(s) && Enabled(true, s, e) && id in s.docs
    ensures id in After(true, s, e).docs
    ensures After(true, s, e).docs[id].doc.dequeues ==
      if CommitsDequeue(s, e, id) then s.docs[id].doc.dequeues + 1
      else if RestoresBudget(s, e, id) then 0
      else s.docs[id].doc.dequeues
  {
    hide Enabled, After, Inv, Edit;
    CommitIsAtomic(s, e, id);
    if Commits(s, e, id) {
      SubscriptionFootprint(s.flights[e.flight].write, s.docs[id].doc, s.now);
    }
  }

  /** With If-Match, between two new budgets at most five Dequeues start a pass, however many there are. */
  lemma {:induction false} AtMostFivePasses(ss: seq<State>, es: seq<Event>, i: nat, j: nat, id: SubscriptionId)
    requires IsRun(true, ss, es) && i <= j < |ss| && id in ss[i].docs
    requires forall k :: i <= k < j ==> !RestoresBudget(ss[k], es[k], id)
    ensures id in ss[j].docs
    ensures Passes(ss, es, id, i, j)
      == Min(ss[j].docs[id].doc.dequeues, MAX_DEQUEUE_COUNT) - Min(ss[i].docs[id].doc.dequeues, MAX_DEQUEUE_COUNT) <= 5
    decreases j
  {
    hide Enabled, After, Inv, CommitsDequeue, RestoresBudget;
    if i < j {
      AtMostFivePasses(ss, es, i, j - 1, id);
      RunKeepsInv(true, ss, es, j - 1);
      CounterStep(ss[j - 1], es[j - 1], id);
    }
  }

  /** With If-Match, an EndLease that is done or asks to be retried restores the budget, and the next Dequeue works again. */
  lemma {:induction false} RetriedPassesWork(ss: seq<State>, es: seq<Event>, i: nat, j: nat, id: SubscriptionId)
    requires IsRun(true, ss, es) && i < j < |ss| && id in ss[i].docs && RestoresBudget(ss[i], es[i], id)
    requires forall k :: i < k < j ==> !CommitsDequeue(ss[k], es[k], id)
    ensures id in ss[j].docs && ss[j].docs[id].doc.dequeues == 0
    ensures j < |es| && CommitsDequeue(ss[j], es[j], id) ==> StartsPass(ss[j], es[j], id)
    decreases j
  {
    hide Enabled, After, Inv;
    RunKeepsInv(true, ss, es, j - 1);
    if i + 1 < j {
      RetriedPassesWork(ss, es, i, j - 1, id);
    }
    CounterStep(ss[j - 1], es[j - 1], id);
  }

  // ---- the state of a subscription ----

  /** A PUT is accepted exactly if it names a state and does not take a subscription out of Deleted. */
  lemma PutIsAccepted(base: Option<Subscription>, state: SubscriptionState)
    ensures Edit(Put(state), base).Some? <==>
      state != Invalid && (base.Some? && base.value.state == Deleted ==> state == Deleted)
    ensures base.None? && Edit(Put(state), base).Some? ==>
      Edit(Put(state), base).value == Subscription(state, state == Deleted, None, 0, 0)
  {}

  predicate CommitsPut(s: State, e: Event, id: SubscriptionId) {
    Commits(s, e, id) && s.flights[e.flight].write.Put?
  }

  /** Event `k` is the last accepted PUT of `id` before state `n`. */
  ghost predicate LastPut(ss: seq<State>, es: seq<Event>, k: nat, n: nat, id: SubscriptionId)
    requires |ss| == |es| + 1 && n < |ss|
  {
    k < n && CommitsPut(ss[k], es[k], id) && forall l :: k < l < n ==> !CommitsPut(ss[l], es[l], id)
  }

  lemma StateStep(s: State, e: Event, id: SubscriptionId)
    requires Inv(s) && Enabled(true, s, e) && id in After(true, s, e).docs
    ensures CommitsPut(s, e, id) ==> After(true, s, e).docs[id].doc.state == s.flights[e.flight].write.state
    ensures !CommitsPut(s, e, id) ==> id in s.docs && After(true, s, e).docs[id].doc.state == s.docs[id].doc.state
  {
    if Commits(s, e, id) {
      assert FlightInv(s, s.flights[e.flight]);
    }
    if id in s.docs {
      CommitIsAtomic(s, e, id);
    }
  }

  /** With If-Match, the state of a subscription is the one that its last accepted PUT asked for. */
  lemma {:induction false} StateIsLastPut(ss: seq<State>, es: seq<Event>, n: nat, id: SubscriptionId)
    requires IsRun(true, ss, es) && n < |ss| && id in ss[n].docs
    ensures exists k: nat :: LastPut(ss, es, k, n, id) && ss[n].docs[id].doc.state == ss[k].flights[es[k].flight].write.state
  {
    hide Enabled, After, Inv;
    RunKeepsInv(true, ss, es, n - 1);
    StateStep(ss[n - 1], es[n - 1], id);
    if CommitsPut(ss[n - 1], es[n - 1], id) {
      assert LastPut(ss, es, n - 1, n, id);
    } else {
      var last := n - 1;
      StateIsLastPut(ss, es, last, id);
      var k: nat :| LastPut(ss, es, k, last, id) && ss[last].docs[id].doc.state == ss[k].flights[es[k].flight].write.state;
      assert LastPut(ss, es, k, n, id);
    }
  }

  // ---- nil options ----

  const REGISTERED := Versioned(Subscription(Registered, false, None, 0, 0), 0)
  const DELETED := Versioned(Subscription(Deleted, true, None, 0, 0), 1)
  const STALE := Flight(Put(Registered), 7, Some(REGISTERED), REGISTERED.doc)
  const DELETE := Flight(Put(Deleted), 7, Some(REGISTERED), DELETED.doc)

  /** The PUT that creates a subscription, then two PUTs that both read it. */
  lemma TwoPutsRead() returns (ss: seq<State>, es: seq<Event>)
    ensures IsRun(false, ss, es) && |es| == 4
    ensures ss[4] == State(0, 1, map[7 := REGISTERED], map[1 := STALE, 2 := DELETE], map[], map[])
  {
    var s0 := State(0, 0, map[], map[], map[], map[]);
    var s1 := s0.(flights := map[0 := Flight(Put(Registered), 7, None, REGISTERED.doc)]);
    var s2 := s0.(nextETag := 1, docs := map[7 := REGISTERED]);
    var s3 := s2.(flights := map[1 := STALE]);
    var s4 := s2.(flights := map[1 := STALE, 2 := DELETE]);
    es := [Read(0, Put(Registered), 7), Commit(0), Read(1, Put(Registered), 7), Read(2, Put(Deleted), 7)];
    ss := [s0, s1, s2, s3, s4];
  }

  /** A PUT that read the subscription before its deletion was requested undoes the request. */
  lemma StalePut() returns (ss: seq<State>, es: seq<Event>)
    ensures IsRun(false, ss, es) && |es| == 6
    ensures 7 in ss[5].docs && ss[5].docs[7].doc.state.Deleted?
    ensures ClearsFlag(ss[5], ss[6], 7) && ss[6].docs[7].doc.state.Registered?
    ensures ss[5].sessions == map[]
  {
    ss, es := TwoPutsRead();
    var s5 := After(false, ss[4], Commit(2));
    var s6 := After(false, s5, Commit(1));
    ss, es := ss + [s5, s6], es + [Commit(2), Commit(1)];
  }

  ghost predicate DeletedIsForGood(conditional: bool) {
    forall ss, es, i: nat, j: nat, id ::
      IsRun(conditional, ss, es) && i <= j < |ss| && IsDeleted(ss[i], id) ==> IsDeleted(ss[j], id)
  }

  predicate IsDeleted(s: State, id: SubscriptionId) {
    id in s.docs && s.docs[id].doc.state.Deleted?
  }

  ghost predicate FlagNeedsPass(conditional: bool) {
    forall ss, es, n: nat, id ::
      IsRun(conditional, ss, es) && n < |es| && ClearsFlag(ss[n], ss[n + 1], id) ==> EndsSomePass(ss, es, n, id)
  }

  ghost predicate EndsSomePass(ss: seq<State>, es: seq<Event>, n: nat, id: SubscriptionId)
    requires |ss| == |es| + 1 && n < |es|
  {
    exists x :: EndsPass(ss, es, n, x, id)
  }

  /** Both promises hold exactly when writes with nil options carry If-Match. */
  lemma PromisesNeedIfMatch(conditional: bool)
    ensures DeletedIsForGood(conditional) <==> conditional
    ensures FlagNeedsPass(conditional) <==> conditional
  {
    if conditional {
      forall ss, es, i: nat, j: nat, id | IsRun(true, ss, es) && i <= j < |ss| && IsDeleted(ss[i], id)
        ensures IsDeleted(ss[j], id)
      {
        DeletedStaysDeleted(ss, es, i, j, id);
      }
      forall ss, es, n: nat, id | IsRun(true, ss, es) && n < |es| && ClearsFlag(ss[n], ss[n + 1], id)
        ensures EndsSomePass(ss, es, n, id)
      {
        FlagClearedAfterPass(ss, es, n, id);
      }
    } else {
      var ss, es := StalePut();
      assert IsDeleted(ss[5], 7) && !IsDeleted(ss[6], 7);
      assert !EndsSomePass(ss, es, 5, 7);
    }
  }
}
