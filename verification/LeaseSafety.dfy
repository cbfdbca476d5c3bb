/**
 Leases: with conditional writes, a lease that its owner has not given up is
 taken over only after it has expired, and only its owner writes under it.
 */
module LeaseSafety {
  import opened Wrappers
  import opened Documents
  import opened Protocol
  import opened StoreInvariants
  import opened Concurrency

  const TAKEOVER_MS: nat := 59_000

  predicate Renews(e: Event, id: DocId, u: Uuid) {
    e.Commit? && e.id == id && RunsRenewLease(e.write) && e.write.uuid == u
  }

  predicate Gives(e: Event, id: DocId, u: Uuid) {
    e.Commit? && e.id == id && e.write.EndLease? && e.write.uuid == u
  }

  predicate Takes(e: Event, id: DocId) {
    e.Commit? && e.id == id && e.write.Dequeue?
  }

  /** No Dequeue of a document within 59 seconds of a renewal that is not followed by a release. */
  ghost predicate NoEarlyTakeover(ss: seq<State>, es: seq<Event>) {
    |ss| == |es| + 1 &&
    forall i, j, id, u ::
      0 <= i < j < |es| && Renews(es[i], id, u) && Takes(es[j], id)
      && (forall k :: i < k < j ==> !Gives(es[k], id, u))
      ==> ss[i].now + TAKEOVER_MS < ss[j].now
  }

  /** The lease of `u`, renewed at `t`, is still in force or long past. */
  predicate InForce(s: State, id: DocId, u: Uuid, t: nat) {
    && id in s.created
    && (id in s.docs ==>
          t + TAKEOVER_MS < s.now
          || (s.docs[id].leaseOwner == Some(u) && t / 1000 + LEASE_SECONDS <= s.docs[id].leaseExpires))
  }

  lemma InForceStep(m: Mode, s: State, e: Event, id: DocId, u: Uuid, t: nat)
    requires Enabled(m, s, e) && InForce(s, id, u, t) && t <= s.now && !Gives(e, id, u)
    requires DocsInv(s)
    ensures InForce(After(m, s, e), id, u, t) && t <= After(m, s, e).now
    ensures Takes(e, id) ==> t + TAKEOVER_MS < s.now
  {
    hide Enabled, After, Edit, Result, Guard;
    if e.Commit? {
      CommitEffect(m, s, e.write, e.id);
      if e.id == id {
        assert GoodDocument(s, s.docs[id]);
        WriteKeepsForce(e.write, s.docs[id], s.now, u, t);
      }
    } else {
      DirectEffect(m, s, e);
    }
  }

  lemma WriteKeepsForce(w: Write, doc: Document, now: nat, u: Uuid, t: nat)
    requires Edit(w, doc).Edited? && (w.Dequeue? ==> Eligible(doc, now)) && !(w.EndLease? && w.uuid == u) && t <= now
    requires t + TAKEOVER_MS < now || (doc.leaseOwner == Some(u) && t / 1000 + LEASE_SECONDS <= doc.leaseExpires)
    ensures w.Dequeue? ==> t + TAKEOVER_MS < now
    ensures var d := Result(w, doc, now);
      t + TAKEOVER_MS < now || (d.leaseOwner == Some(u) && t / 1000 + LEASE_SECONDS <= d.leaseExpires)
  {}

  lemma {:induction false} LeaseStaysInForce(m: Mode, ss: seq<State>, es: seq<Event>, i: nat, n: nat, id: DocId, u: Uuid)
    requires IsRun(m, ss, es) && i < n <= |es|
    requires Renews(es[i], id, u)
    requires forall k :: i < k < n ==> !Gives(es[k], id, u)
    ensures InForce(ss[n], id, u, ss[i].now) && ss[i].now <= ss[n].now
  {
    if n == i + 1 {
      RunKeepsStore(m, ss, es, i);
      assert GoodDocument(ss[i], ss[i].docs[id]);
    } else {
      LeaseStaysInForce(m, ss, es, i, n - 1, id, u);
      RunKeepsStore(m, ss, es, n - 1);
      InForceStep(m, ss[n - 1], es[n - 1], id, u, ss[i].now);
    }
  }

  lemma RunsHaveNoEarlyTakeover(m: Mode, ss: seq<State>, es: seq<Event>)
    requires IsRun(m, ss, es)
    ensures NoEarlyTakeover(ss, es)
  {
    forall i, j, id, u |
      0 <= i < j < |es| && Renews(es[i], id, u) && Takes(es[j], id)
      && (forall k :: i < k < j ==> !Gives(es[k], id, u))
      ensures ss[i].now + TAKEOVER_MS < ss[j].now
    {
      LeaseStaysInForce(m, ss, es, i, j, id, u);
      RunKeepsStore(m, ss, es, j);
      InForceStep(m, ss[j], es[j], id, u, ss[i].now);
    }
  }

  /** In conditional mode, no interleaving of any writers takes a lease over early. */
  lemma NoEarlyTakeoverWhenConditional(m: Mode, vs: seq<Server>, acts: seq<Action>)
    requires m.conditional && IsExecution(m, vs, acts)
    ensures NoEarlyTakeover(Stores(vs), Events(vs, acts))
  {
    ConditionalExecutionsAreAtomicRuns(m, vs, acts);
    RunsHaveNoEarlyTakeover(m, Stores(vs), Events(vs, acts));
  }

  /** A held lease leaves its owner only by the owner's release, a removal or the Dequeue of an expired lease. */
  lemma HowALeaseEnds(m: Mode, s: State, e: Event, id: DocId, u: Uuid)
    requires Enabled(m, s, e) && DocsInv(s)
    requires id in s.docs && s.docs[id].leaseOwner == Some(u)
    requires id in After(m, s, e).docs ==> After(m, s, e).docs[id].leaseOwner != Some(u)
    ensures Gives(e, id, u)
         || (e.Remove? && s.sessions[e.session].id == id)
         || (Takes(e, id) && Eligible(s.docs[id], s.now))
  {
    hide Enabled, After, Edit, Result, Guard;
    if e.Commit? {
      CommitEffect(m, s, e.write, e.id);
      if e.id == id {
        OwnerStays(e.write, s.docs[id], s.now, u);
      }
    } else {
      DirectEffect(m, s, e);
    }
  }

  /** Only a Dequeue and the owner's release take a lease off its owner. */
  lemma OwnerStays(w: Write, doc: Document, now: nat, u: Uuid)
    requires Edit(w, doc).Edited? && doc.leaseOwner == Some(u) && Result(w, doc, now).leaseOwner != Some(u)
    ensures w.Dequeue? || (w.EndLease? && w.uuid == u)
  {}

  /** The event renews, takes or gives the lease of document `id`, so that its expiry changes. */
  predicate SetsExpiry(e: Event, id: DocId) {
    e.Commit? && e.id == id && (RunsRenewLease(e.write) || e.write.EndLease?)
  }

  lemma ExpiryStep(m: Mode, s: State, e: Event, id: DocId, u: Uuid)
    requires Enabled(m, s, e) && DocsInv(s) && id in s.created && id in After(m, s, e).docs
    ensures Renews(e, id, u) ==> After(m, s, e).docs[id].leaseExpires == s.now / 1000 + LEASE_SECONDS
    ensures !SetsExpiry(e, id) ==> id in s.docs && After(m, s, e).docs[id].leaseExpires == s.docs[id].leaseExpires
    ensures id in After(m, s, e).created
  {
    hide Enabled, After, Edit, Result, Guard;
    if e.Commit? {
      CommitEffect(m, s, e.write, e.id);
      ExpiryOf(e.write, s.docs[e.id], s.now);
    } else {
      DirectEffect(m, s, e);
    }
  }

  lemma ExpiryOf(w: Write, doc: Document, now: nat)
    requires Edit(w, doc).Edited?
    ensures RunsRenewLease(w) ==> Result(w, doc, now).leaseExpires == now / 1000 + LEASE_SECONDS
    ensures !RunsRenewLease(w) && !w.EndLease? ==> Result(w, doc, now).leaseExpires == doc.leaseExpires
  {}

  /** Work whose lease was last renewed at some time can be dequeued from exactly 60 whole seconds later on. */
  lemma {:induction false} LeaseLastsAMinute(m: Mode, ss: seq<State>, es: seq<Event>, i: nat, j: nat, id: DocId, u: Uuid)
    requires IsRun(m, ss, es) && i < j < |ss| && Renews(es[i], id, u) && id in ss[j].docs
    requires forall k :: i < k < j ==> !SetsExpiry(es[k], id)
    ensures ss[j].docs[id].leaseExpires == ss[i].now / 1000 + LEASE_SECONDS
    ensures !Terminal(ss[j].docs[id].state) ==>
      (Eligible(ss[j].docs[id], ss[j].now) <==> (ss[i].now / 1000 + 60) * 1000 < ss[j].now)
  {
    hide Enabled, After, SetsExpiry, Renews;
    RunKeepsStore(m, ss, es, j - 1);
    RenewedIsCreated(m, ss, es, i, j - 1, id, u);
    ExpiryStep(m, ss[j - 1], es[j - 1], id, u);
    if i + 1 < j {
      LeaseLastsAMinute(m, ss, es, i, j - 1, id, u);
    }
  }

  lemma {:induction false} RenewedIsCreated(m: Mode, ss: seq<State>, es: seq<Event>, i: nat, j: nat, id: DocId, u: Uuid)
    requires IsRun(m, ss, es) && i <= j < |ss| && i < |es| && Renews(es[i], id, u)
    ensures id in ss[j].created
    decreases j
  {
    hide After, Edit;
    if i == j {
      RunKeepsStore(m, ss, es, i);
      assert GoodDocument(ss[i], ss[i].docs[id]);
    } else {
      RenewedIsCreated(m, ss, es, i, j - 1, id, u);
      StepGrows(m, ss[j - 1], es[j - 1]);
    }
  }

  /** In conditional mode, Lease, PatchWithLease and EndLease are accepted from the current owner only. */
  lemma OnlyTheOwnerWritesUnderTheLease(m: Mode, vs: seq<Server>, acts: seq<Action>, n: nat)
    requires m.conditional && IsExecution(m, vs, acts) && n < |acts|
    requires acts[n].Finish? && Holder(vs[n].flights[acts[n].flight].write).Some?
    ensures var f := vs[n].flights[acts[n].flight];
      f.id in vs[n].store.docs && vs[n].store.docs[f.id].leaseOwner == Holder(f.write)
  {
    ExecutionKeepsServer(m, vs, acts, n);
    IfMatchIsAtomic(m, vs[n], acts[n].flight);
  }
}
