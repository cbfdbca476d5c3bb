/**
 The provisioning state machine over whole runs: under conditional writes and one
 session per process and key, a lease identifies the session that holds it, and
 a cluster that is being deleted, or whose creation or deletion failed, never
 comes back.
 */
module Lifecycle {
  import opened Wrappers
  import opened Documents
  import opened Protocol
  import opened StoreInvariants
  import opened Concurrency

  // ---- a lease belongs to one session ----

  predicate Matches(id: DocId, doc: Document, session: Session) {
    doc.leaseOwner == Some(session.uuid) && doc.identity.key == session.key ==>
      id == session.id && doc.state == session.state && doc.asyncId == session.asyncId
  }

  ghost predicate LoneInv(s: State) {
    forall x, y :: x in s.sessions && y in s.sessions && x != y ==>
      !(s.sessions[x].uuid == s.sessions[y].uuid && s.sessions[x].key == s.sessions[y].key)
  }

  ghost predicate LeaseInv(s: State) {
    forall x, id :: x in s.sessions && id in s.docs ==> Matches(id, s.docs[id], s.sessions[x])
  }

  ghost predicate SessionKeyInv(s: State) {
    forall x :: x in s.sessions ==>
      && s.sessions[x].id in s.created
      && (s.sessions[x].id in s.docs ==> s.docs[s.sessions[x].id].identity.key == s.sessions[x].key)
  }

  ghost predicate HeldInv(s: State) {
    LoneInv(s) && LeaseInv(s) && SessionKeyInv(s)
  }

  /** Any write but a Dequeue leaves the owner's view of the document intact, or ends the lease. */
  lemma WriteKeepsMatch(w: Write, id: DocId, doc: Document, now: nat, session: Session)
    requires WellFormed(doc) && Edit(w, doc).Edited? && !w.Dequeue?
    requires Matches(id, doc, session)
    ensures Matches(id, Result(w, doc, now), session)
  {}

  lemma DequeueKeepsLease(m: Mode, s: State, w: Write, id: DocId)
    requires m.oneSession && w.Dequeue? && Enabled(m, s, Commit(w, id))
    requires DocsInv(s) && KeysInv(s) && HeldInv(s)
    ensures LeaseInv(After(m, s, Commit(w, id)))
  {
    var t := After(m, s, Commit(w, id));
    forall x, y | x in t.sessions && y in t.docs ensures Matches(y, t.docs[y], t.sessions[x]) {
      if y != id && x == w.session {
        UniqueEverywhere(s, y, id);
      } else if y != id {
        assert Matches(y, s.docs[y], s.sessions[x]);
      }
    }
  }

  lemma CommitKeepsLease(m: Mode, s: State, w: Write, id: DocId)
    requires !w.Dequeue? && Enabled(m, s, Commit(w, id))
    requires DocsInv(s) && HeldInv(s)
    ensures LeaseInv(After(m, s, Commit(w, id)))
  {
    var t := After(m, s, Commit(w, id));
    forall x, y | x in t.sessions && y in t.docs ensures Matches(y, t.docs[y], t.sessions[x]) {
      assert Matches(y, s.docs[y], s.sessions[x]);
      if y == id {
        assert GoodDocument(s, s.docs[id]);
        WriteKeepsMatch(w, id, s.docs[id], s.now, s.sessions[x]);
      }
    }
  }

  lemma CommitKeepsSessionKeys(m: Mode, s: State, w: Write, id: DocId)
    requires m.oneSession && Enabled(m, s, Commit(w, id))
    requires DocsInv(s) && HeldInv(s)
    ensures LoneInv(After(m, s, Commit(w, id))) && SessionKeyInv(After(m, s, Commit(w, id)))
  {
    hide Edit, Result, LeaseInv, GoodDocument;
    ResultIdentity(w, s.docs[id], s.now);
  }

  lemma DirectKeepsHeld(m: Mode, s: State, e: Event)
    requires m.oneSession && Enabled(m, s, e) && !e.Commit?
    requires DocsInv(s) && HeldInv(s)
    ensures HeldInv(After(m, s, e))
  {
    var t := After(m, s, e);
    forall x, y | x in t.sessions && y in t.docs ensures Matches(y, t.docs[y], t.sessions[x]) {
      if y in s.docs && t.docs[y] == s.docs[y] {
        assert Matches(y, s.docs[y], s.sessions[x]);
      }
    }
  }

  lemma StepKeepsHeld(m: Mode, s: State, e: Event)
    requires m.oneSession && Enabled(m, s, e)
    requires DocsInv(s) && KeysInv(s) && HeldInv(s)
    ensures HeldInv(After(m, s, e))
  {
    if e.Commit? {
      CommitKeepsSessionKeys(m, s, e.write, e.id);
      if e.write.Dequeue? {
        DequeueKeepsLease(m, s, e.write, e.id);
      } else {
        CommitKeepsLease(m, s, e.write, e.id);
      }
    } else {
      DirectKeepsHeld(m, s, e);
    }
  }

  lemma {:induction false} RunKeepsHeld(m: Mode, ss: seq<State>, es: seq<Event>, n: nat)
    requires m.oneSession && IsRun(m, ss, es) && n < |ss|
    ensures HeldInv(ss[n])
  {
    if n > 0 {
      RunKeepsHeld(m, ss, es, n - 1);
      RunKeepsStore(m, ss, es, n - 1);
      StepKeepsHeld(m, ss[n - 1], es[n - 1]);
    }
  }

  // ---- no way back ----

  /** Being deleted, or failed in creation or deletion. */
  predicate Doomed(doc: Document) {
    || doc.state.Deleting?
    || (doc.state.Failed? && (doc.failedState.Creating? || doc.failedState.Deleting?))
  }

  lemma StepKeepsDoomed(m: Mode, s: State, e: Event, id: DocId)
    requires Enabled(m, s, e) && DocsInv(s) && SessionsInv(s) && HeldInv(s)
    requires id in s.docs && Doomed(s.docs[id])
    ensures id in After(m, s, e).created
    ensures id in After(m, s, e).docs ==> Doomed(After(m, s, e).docs[id])
  {
    hide Enabled, After, Edit, Result, KnownOperation;
    assert GoodDocument(s, s.docs[id]);
    if e.Commit? {
      CommitEffect(m, s, e.write, e.id);
      if e.id == id {
        if e.write.EndLease? {
          assert GoodSession(s, s.sessions[e.write.session]);
          assert Matches(id, s.docs[id], s.sessions[e.write.session]);
        }
        WriteKeepsDoomed(m, s, e.write, id);
      }
    } else {
      DirectEffect(m, s, e);
    }
  }

  lemma WriteKeepsDoomed(m: Mode, s: State, w: Write, id: DocId)
    requires id in s.docs && Edit(w, s.docs[id]).Edited? && WellFormed(s.docs[id]) && Doomed(s.docs[id]) && Guard(m, s, w, id)
    requires w.EndLease? ==>
      InProgress(s.sessions[w.session].state) && Matches(id, s.docs[id], s.sessions[w.session])
      && (s.sessions[w.session].published.Some? ==> Terminal(s.sessions[w.session].published.value))
    ensures Doomed(Result(w, s.docs[id], s.now))
  {}

  /** A document once created and then removed does not return under the same id. */
  lemma RemovedStaysRemoved(m: Mode, s: State, e: Event, id: DocId)
    requires Enabled(m, s, e) && id in s.created && id !in s.docs
    ensures id in After(m, s, e).created && id !in After(m, s, e).docs
  {}

  lemma {:induction false} DoomedForGood(m: Mode, ss: seq<State>, es: seq<Event>, i: nat, j: nat, id: DocId)
    requires m.oneSession && IsRun(m, ss, es) && i <= j < |ss|
    requires id in ss[i].docs && Doomed(ss[i].docs[id])
    ensures id in ss[j].created
    ensures id in ss[j].docs ==> Doomed(ss[j].docs[id])
    decreases j
  {
    hide Enabled, After, KeysInv, HeldInv, SessionsInv;
    if i == j {
      RunKeepsStore(m, ss, es, i);
      assert GoodDocument(ss[i], ss[i].docs[id]);
    } else {
      DoomedForGood(m, ss, es, i, j - 1, id);
      RunKeepsStore(m, ss, es, j - 1);
      RunKeepsHeld(m, ss, es, j - 1);
      if id in ss[j - 1].docs {
        StepKeepsDoomed(m, ss[j - 1], es[j - 1], id);
      } else {
        RemovedStaysRemoved(m, ss[j - 1], es[j - 1], id);
      }
    }
  }

  /** An accepted deletion, by the user or of the subscription, is never undone. */
  lemma DeletionIsForGood(m: Mode, ss: seq<State>, es: seq<Event>, i: nat, j: nat, id: DocId)
    requires m.oneSession && IsRun(m, ss, es) && i < j < |ss|
    requires es[i].Commit? && es[i].id == id
    requires es[i].write.RequestDelete? || (es[i].write.SubscriptionDelete? && !Busy(ss[i].docs[id]))
    ensures id in ss[j].docs ==> Doomed(ss[j].docs[id])
  {
    assert ss[i + 1] == After(m, ss[i], es[i]);
    assert Doomed(ss[i + 1].docs[id]);
    DoomedForGood(m, ss, es, i + 1, j, id);
  }

  ghost predicate NeverComesBack(ss: seq<State>) {
    forall i, j, id ::
      0 <= i <= j < |ss| && id in ss[i].docs && Doomed(ss[i].docs[id]) && id in ss[j].docs
      ==> ss[j].docs[id].state.Deleting? || ss[j].docs[id].state.Failed?
  }

  /** In conditional mode with one session per key: until it is removed, a doomed cluster is Deleting or Failed. */
  lemma DoomedClustersNeverComeBack(m: Mode, vs: seq<Server>, acts: seq<Action>)
    requires m.conditional && m.oneSession && IsExecution(m, vs, acts)
    ensures NeverComesBack(Stores(vs))
  {
    ConditionalExecutionsAreAtomicRuns(m, vs, acts);
    var ss := Stores(vs);
    forall i, j, id | 0 <= i <= j < |ss| && id in ss[i].docs && Doomed(ss[i].docs[id]) && id in ss[j].docs
      ensures ss[j].docs[id].state.Deleting? || ss[j].docs[id].state.Failed?
    {
      DoomedForGood(m, ss, Events(vs, acts), i, j, id);
    }
  }
}
