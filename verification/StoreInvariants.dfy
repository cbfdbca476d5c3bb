/**
 What every stored document satisfies in every run, whether or not writes are
 conditional.  A write is described by the document it was computed from, `base`,
 which need not be the stored one.
 */
module StoreInvariants {
  import opened Wrappers
  import opened Documents
  import opened Paths
  import opened Protocol

  predicate KnownOperation(s: State, op: Option<OperationId>, key: string) {
    op.Some? ==> op.value in s.carried && op.value in s.asyncs && s.asyncs[op.value].key == key
  }

  /** Its operation, if it carries one, is for this key and was started for this state. */
  predicate GoodDocument(s: State, doc: Document) {
    && WellFormed(doc)
    && KnownOperation(s, doc.asyncId, doc.identity.key)
    && (doc.asyncId.Some? ==> s.asyncs[doc.asyncId.value].initial == doc.state)
  }

  ghost predicate DocsInv(s: State) {
    forall id :: id in s.docs ==> id in s.created && GoodDocument(s, s.docs[id])
  }

  ghost predicate IdentityInv(s: State) {
    forall id :: id in s.docs ==> ValidIdentity(s.docs[id].identity, s.docs[id].resourceGroupId)
  }

  ghost predicate UniqueInv(s: State) {
    forall x, y :: x in s.docs && y in s.docs && x != y ==> !Clash(s.docs[x].identity, s.docs[y].identity)
  }

  predicate GoodSession(s: State, session: Session) {
    && InProgress(session.state)
    && KnownOperation(s, session.asyncId, session.key)
    && (session.published.Some? ==> Terminal(session.published.value))
    && (session.overLimit ==> session.published != Some(Succeeded))
  }

  ghost predicate SessionsInv(s: State) {
    forall x :: x in s.sessions ==> GoodSession(s, s.sessions[x])
  }

  ghost predicate AsyncsInv(s: State) {
    && (forall op :: op in s.asyncs ==> InProgress(s.asyncs[op].initial))
    && (forall op :: op in s.asyncs && s.asyncs[op].state != s.asyncs[op].initial ==>
          Terminal(s.asyncs[op].state) && op in s.carried)
    && (forall op :: op in s.carried ==> op in s.asyncs)
  }

  ghost predicate StoreInv(s: State) {
    DocsInv(s) && SessionsInv(s) && AsyncsInv(s)
  }

  ghost predicate KeysInv(s: State) {
    IdentityInv(s) && UniqueInv(s)
  }

  /** A document that some writer has read from `id` and may write back to it. */
  predicate GoodBase(s: State, id: DocId, base: Document)
    requires id in s.docs
  {
    && GoodDocument(s, base)
    && base.identity == s.docs[id].identity
    && base.resourceGroupId == s.docs[id].resourceGroupId
  }

  lemma InitStore(s: State)
    requires Init(s)
    ensures StoreInv(s) && KeysInv(s)
  {}

  // ---- framing ----

  /** Documents and operations once known stay known. */
  ghost predicate Grows(s: State, t: State) {
    && s.created <= t.created
    && s.carried <= t.carried
    && forall op :: op in s.asyncs ==>
      op in t.asyncs && t.asyncs[op].key == s.asyncs[op].key && t.asyncs[op].initial == s.asyncs[op].initial
  }

  lemma DocsFrame(s: State, t: State, id: DocId)
    requires DocsInv(s) && Grows(s, t)
    requires forall x :: x in t.docs && x != id ==> x in s.docs && t.docs[x] == s.docs[x]
    requires id in t.docs ==> id in t.created && GoodDocument(t, t.docs[id])
    ensures DocsInv(t)
  {}

  lemma SessionsFrame(s: State, t: State, x: SessionId)
    requires SessionsInv(s) && Grows(s, t)
    requires forall y :: y in t.sessions && y != x ==> y in s.sessions && t.sessions[y] == s.sessions[y]
    requires x in t.sessions ==> GoodSession(t, t.sessions[x])
    ensures SessionsInv(t)
  {}

  lemma KeysFrame(s: State, t: State)
    requires KeysInv(s)
    requires forall x :: x in t.docs ==>
      x in s.docs && t.docs[x].identity == s.docs[x].identity && t.docs[x].resourceGroupId == s.docs[x].resourceGroupId
    ensures KeysInv(t)
  {}

  lemma GrowsReflexive(s: State)
    ensures Grows(s, s)
  {}

  lemma GrowsTransitive(s: State, t: State, u: State)
    requires Grows(s, t) && Grows(t, u)
    ensures Grows(s, u)
  {}

  lemma StepGrows(m: Mode, s: State, e: Event)
    requires Enabled(m, s, e)
    ensures Grows(s, After(m, s, e))
  {}

  // ---- what events do to documents and sessions ----

  lemma CommitEffect(m: Mode, s: State, w: Write, id: DocId)
    requires Enabled(m, s, Commit(w, id))
    ensures id in s.docs && Edit(w, s.docs[id]).Edited? && (w.Dequeue? ==> Eligible(s.docs[id], s.now))
    ensures Guard(m, s, w, id)
    ensures var t := After(m, s, Commit(w, id));
      t.docs == s.docs[id := Result(w, s.docs[id], s.now)] && t.now == s.now && t.created == s.created
  {
    hide Edit, Guard, Result;
  }

  lemma DirectEffect(m: Mode, s: State, e: Event)
    requires Enabled(m, s, e) && !e.Commit? && DocsInv(s)
    ensures var t := After(m, s, e);
      && s.now <= t.now && s.created <= t.created
      && (forall id :: id in s.docs && id in t.docs ==> t.docs[id] == s.docs[id])
      && (forall id :: id in s.docs && id !in t.docs ==> e.Remove? && e.session in s.sessions && s.sessions[e.session].id == id)
      && (forall id :: id in t.docs && id !in s.docs ==> e.Create? && e.id == id && id !in s.created && t.docs[id] == NewDocument(e))
  {
    hide ValidIdentity, GoodDocument;
  }

  /** A session that goes on is still about the same document and the same work. */
  predicate SameSession(s: State, t: State, y: SessionId) {
    y in s.sessions && y in t.sessions ==> t.sessions[y].(published := s.sessions[y].published) == s.sessions[y]
  }

  lemma SessionEffect(m: Mode, s: State, e: Event, y: SessionId)
    requires Enabled(m, s, e)
    ensures SameSession(s, After(m, s, e), y)
  {
    hide ValidIdentity, Edit, Result;
  }

  // ---- one write ----

  lemma ResultIdentity(w: Write, base: Document, now: nat)
    requires Edit(w, base).Edited?
    ensures Result(w, base, now).identity == base.identity
    ensures Result(w, base, now).resourceGroupId == base.resourceGroupId
  {}

  /** Every write of every writer keeps the state rules of a single document. */
  lemma ResultWellFormed(w: Write, base: Document, now: nat)
    requires WellFormed(base) && Edit(w, base).Edited?
    requires w.Dequeue? ==> !Terminal(base.state)
    requires w.EndLease? ==> Terminal(w.outcome)
    requires w.EndLease? ==> if w.outcome.Failed? then InProgress(w.failedState) else w.failedState.Unset?
    ensures WellFormed(Result(w, base, now))
  {}

  lemma ResultOperation(m: Mode, s: State, w: Write, id: DocId, base: Document)
    requires id in s.docs && GoodBase(s, id, base)
    requires Edit(w, base).Edited? && Guard(m, s, w, id)
    ensures var doc := Result(w, base, s.now);
      && KnownOperation(Written(s, w, id, doc), doc.asyncId, base.identity.key)
      && (doc.asyncId.Some? ==> s.asyncs[doc.asyncId.value].initial == doc.state)
  {}

  lemma WriteKeepsDocs(m: Mode, s: State, w: Write, id: DocId, base: Document)
    requires StoreInv(s)
    requires id in s.docs && GoodBase(s, id, base)
    requires Edit(w, base).Edited? && Guard(m, s, w, id)
    requires w.Dequeue? ==> !Terminal(base.state)
    ensures DocsInv(Written(s, w, id, Result(w, base, s.now)))
    ensures GoodDocument(Written(s, w, id, Result(w, base, s.now)), Result(w, base, s.now))
    ensures Grows(s, Written(s, w, id, Result(w, base, s.now)))
  {
    var doc := Result(w, base, s.now);
    var t := Written(s, w, id, doc);
    if w.EndLease? {
      assert GoodSession(s, s.sessions[w.session]);
    }
    ResultWellFormed(w, base, s.now);
    ResultOperation(m, s, w, id, base);
    ResultIdentity(w, base, s.now);
    DocsFrame(s, t, id);
  }

  lemma WriteKeepsSessions(m: Mode, s: State, w: Write, id: DocId, base: Document)
    requires StoreInv(s)
    requires id in s.docs && GoodBase(s, id, base)
    requires Edit(w, base).Edited? && Guard(m, s, w, id)
    requires w.Dequeue? ==> !Terminal(base.state)
    ensures SessionsInv(Written(s, w, id, Result(w, base, s.now)))
  {
    WriteKeepsDocs(m, s, w, id, base);
    var t := Written(s, w, id, Result(w, base, s.now));
    SessionsFrame(s, t, if w.Dequeue? || w.EndLease? then w.session else 0);
  }

  lemma WriteKeepsStore(m: Mode, s: State, w: Write, id: DocId, base: Document)
    requires StoreInv(s)
    requires id in s.docs && GoodBase(s, id, base)
    requires Edit(w, base).Edited? && Guard(m, s, w, id)
    requires w.Dequeue? ==> !Terminal(base.state)
    ensures StoreInv(Written(s, w, id, Result(w, base, s.now)))
  {
    WriteKeepsDocs(m, s, w, id, base);
    WriteKeepsSessions(m, s, w, id, base);
  }

  lemma WriteKeepsKeys(s: State, w: Write, id: DocId, base: Document)
    requires KeysInv(s)
    requires id in s.docs && GoodBase(s, id, base) && Edit(w, base).Edited?
    ensures KeysInv(Written(s, w, id, Result(w, base, s.now)))
  {
    hide KeysInv, Edit, Result, GoodDocument;
    ResultIdentity(w, base, s.now);
    KeysFrame(s, Written(s, w, id, Result(w, base, s.now)));
  }

  // ---- the other events ----

  lemma DirectKeepsAsyncs(m: Mode, s: State, e: Event)
    requires StoreInv(s) && Enabled(m, s, e) && !e.Commit?
    ensures AsyncsInv(After(m, s, e))
  {
    if e.Publish? {
      assert GoodSession(s, s.sessions[e.session]);
    }
  }

  lemma DirectKeepsStore(m: Mode, s: State, e: Event)
    requires StoreInv(s) && Enabled(m, s, e) && !e.Commit?
    ensures StoreInv(After(m, s, e))
  {
    hide ValidIdentity, Clash, AsyncsInv;
    var t := After(m, s, e);
    StepGrows(m, s, e);
    DirectKeepsAsyncs(m, s, e);
    DocsFrame(s, t, if e.Create? then e.id else if e.Remove? then s.sessions[e.session].id else 0);
    SessionsFrame(s, t, if e.Publish? || e.Remove? || e.Abandon? then e.session else 0);
  }

  lemma DirectKeepsKeys(m: Mode, s: State, e: Event)
    requires KeysInv(s) && Enabled(m, s, e) && !e.Commit?
    ensures KeysInv(After(m, s, e))
  {
    hide ValidIdentity;
    if !e.Create? {
      KeysFrame(s, After(m, s, e));
    }
  }

  lemma StepKeepsStore(m: Mode, s: State, e: Event)
    requires StoreInv(s) && KeysInv(s) && Enabled(m, s, e)
    ensures StoreInv(After(m, s, e)) && KeysInv(After(m, s, e))
  {
    if e.Commit? {
      WriteKeepsStore(m, s, e.write, e.id, s.docs[e.id]);
      WriteKeepsKeys(s, e.write, e.id, s.docs[e.id]);
    } else {
      DirectKeepsStore(m, s, e);
      DirectKeepsKeys(m, s, e);
    }
  }

  /** Every state of every atomic run satisfies the store invariant. */
  lemma {:induction false} RunKeepsStore(m: Mode, ss: seq<State>, es: seq<Event>, n: nat)
    requires IsRun(m, ss, es) && n < |ss|
    ensures StoreInv(ss[n]) && KeysInv(ss[n])
  {
    if n == 0 {
      InitStore(ss[0]);
    } else {
      RunKeepsStore(m, ss, es, n - 1);
      StepKeepsStore(m, ss[n - 1], es[n - 1]);
    }
  }

  // ---- global uniqueness ----

  lemma ResourceGroupFixesPartition(doc: Document)
    requires ValidIdentity(doc.identity, doc.resourceGroupId)
    ensures Subscription(doc.identity.resourceGroupKey) == doc.identity.partitionKey
  {
    SegmentToLower(doc.resourceGroupId, 2);
    SegmentToLower(doc.identity.key, 2);
  }

  /**
   Equal unique keys force two documents into one partition, so the per-partition
   policy of the store is a policy over the whole database.
   */
  lemma UniqueEverywhere(s: State, x: DocId, y: DocId)
    requires KeysInv(s)
    requires x in s.docs && y in s.docs && x != y
    ensures s.docs[x].identity.key != s.docs[y].identity.key
    ensures s.docs[x].identity.resourceGroupKey != s.docs[y].identity.resourceGroupKey
  {
    ResourceGroupFixesPartition(s.docs[x]);
    ResourceGroupFixesPartition(s.docs[y]);
  }
}
