/**
 What each write changes in a document and what it leaves alone, when it is
 accepted, and what follows for the fields of a document over whole runs.
 */
module WriteEffects {
  import opened Wrappers
  import opened Documents
  import opened Protocol
  import opened StoreInvariants
  import opened Concurrency
  import opened Lifecycle

  // ---- one write ----

  /** The content that a write brings along, if it brings any. */
  function ContentOf(w: Write): Option<int> {
    if w.PutOrPatch? then Some(w.content)
    else if w.PatchWithLease? && w.edit.SetContent? then Some(w.edit.content)
    else None
  }

  predicate SetsState(w: Write) {
    w.PutOrPatch? || w.RequestDelete? || w.EndLease? || w.SubscriptionDelete?
  }

  /** Every field of a document is changed by its own writers only. */
  lemma Footprint(w: Write, base: Document, now: nat)
    requires Edit(w, base).Edited?
    ensures var doc := Result(w, base, now);
      && doc.identity == base.identity && doc.resourceGroupId == base.resourceGroupId
      && doc.content == (if ContentOf(w).Some? then ContentOf(w).value else base.content)
      && (doc.install != base.install ==> w.PatchWithLease?)
      && (doc.leaseOwner != base.leaseOwner ==> w.Dequeue? || w.EndLease?)
      && (doc.leaseExpires != base.leaseExpires ==> w.Dequeue? || w.Lease? || w.EndLease?)
      && (doc.dequeues != base.dequeues ==> w.Dequeue? || ResetsDequeues(w))
      && (doc.asyncId != base.asyncId ==> w.PutOrPatch? || w.RequestDelete? || w.EndLease?)
      && (doc.state != base.state ==> SetsState(w))
      && (doc.failedState != base.failedState ==> w.PutOrPatch? || w.EndLease?)
  {}

  /** A deletion is accepted in exactly the two terminal states, whatever has failed. */
  lemma DeleteIsAccepted(doc: Document, op: OperationId)
    ensures Edit(RequestDelete(op), doc).Edited? <==> doc.state == Succeeded || doc.state == Failed
    ensures Edit(RequestDelete(op), doc).Edited? ==>
      Edit(RequestDelete(op), doc).doc == doc.(state := Deleting, dequeues := 0, asyncId := Some(op))
  {}

  /** An update is accepted if nothing failed but an earlier update, and the resource group stays. */
  lemma UpdateIsAccepted(doc: Document, op: OperationId, rg: string, content: int)
    requires WellFormed(doc)
    ensures Edit(PutOrPatch(op, rg, content), doc).Edited? <==>
      && (doc.state == Succeeded || (doc.state == Failed && doc.failedState == Updating))
      && rg == doc.resourceGroupId
  {}

  // ---- content over runs ----

  /** The event sets the content of document `id` to `c`. */
  predicate SetsContent(e: Event, id: DocId, c: int) {
    || (e.Create? && e.id == id && e.content == c)
    || (e.Commit? && e.id == id && ContentOf(e.write) == Some(c))
  }

  predicate TouchesContent(e: Event, id: DocId) {
    || (e.Create? && e.id == id)
    || (e.Commit? && e.id == id && ContentOf(e.write).Some?)
  }

  /** Event `k` is the last before state `n` that sets the content of `id`, and it set it to `c`. */
  ghost predicate LastSet(es: seq<Event>, k: nat, n: nat, id: DocId, c: int)
    requires n <= |es|
  {
    k < n && SetsContent(es[k], id, c) && forall l :: k < l < n ==> !TouchesContent(es[l], id)
  }

  lemma ContentStep(m: Mode, s: State, e: Event, id: DocId)
    requires Enabled(m, s, e) && DocsInv(s) && id in After(m, s, e).docs
    ensures TouchesContent(e, id) ==> SetsContent(e, id, After(m, s, e).docs[id].content)
    ensures !TouchesContent(e, id) ==> id in s.docs && After(m, s, e).docs[id].content == s.docs[id].content
  {
    hide Enabled, After, Edit, Result, Guard;
    if e.Commit? {
      CommitEffect(m, s, e.write, e.id);
      Footprint(e.write, s.docs[e.id], s.now);
    } else {
      DirectEffect(m, s, e);
      if e.Create? {
        CreateEffect(m, s, e);
      }
    }
  }

  lemma CreateEffect(m: Mode, s: State, e: Event)
    requires Enabled(m, s, e) && e.Create?
    ensures After(m, s, e).docs == s.docs[e.id := NewDocument(e)]
    ensures NewDocument(e).content == e.content && NewDocument(e).dequeues == 0 && NewDocument(e).identity == e.identity
  {
    hide ValidIdentity;
  }

  /** What a document holds is what its creation, or the last accepted update or worker's patch, put there. */
  lemma {:induction false} ContentIsLastSet(m: Mode, ss: seq<State>, es: seq<Event>, n: nat, id: DocId)
    requires IsRun(m, ss, es) && n < |ss| && id in ss[n].docs
    ensures exists k: nat :: LastSet(es, k, n, id, ss[n].docs[id].content)
  {
    hide Enabled, After;
    RunKeepsStore(m, ss, es, n - 1);
    ContentStep(m, ss[n - 1], es[n - 1], id);
    if TouchesContent(es[n - 1], id) {
      assert LastSet(es, n - 1, n, id, ss[n].docs[id].content);
    } else {
      ContentIsLastSet(m, ss, es, n - 1, id);
      var k: nat :| LastSet(es, k, n - 1, id, ss[n - 1].docs[id].content);
      assert LastSet(es, k, n, id, ss[n].docs[id].content);
    }
  }

  ghost predicate ContentKept(ss: seq<State>, es: seq<Event>) {
    |ss| == |es| + 1 &&
    forall n: nat, id :: n < |ss| && id in ss[n].docs ==> exists k: nat :: LastSet(es, k, n, id, ss[n].docs[id].content)
  }

  /** In every conditional interleaving, no content is lost. */
  lemma NoContentIsLost(m: Mode, vs: seq<Server>, acts: seq<Action>)
    requires m.conditional && IsExecution(m, vs, acts)
    ensures ContentKept(Stores(vs), Events(vs, acts))
  {
    hide Can, Do;
    ConditionalExecutionsAreAtomicRuns(m, vs, acts);
    var ss, es := Stores(vs), Events(vs, acts);
    forall n: nat, id | n < |ss| && id in ss[n].docs ensures exists k: nat :: LastSet(es, k, n, id, ss[n].docs[id].content) {
      ContentIsLastSet(m, ss, es, n, id);
    }
  }

  // ---- what a worker commits ----

  /**
   EndLease stores the outcome that its session published and, if that is Failed,
   the state the cluster was in; it releases lease and operation.
   */
  lemma EndLeaseCommitsOutcome(m: Mode, ss: seq<State>, es: seq<Event>, n: nat)
    requires m.oneSession && IsRun(m, ss, es) && n < |es| && es[n].Commit? && es[n].write.EndLease?
    ensures var id, x := es[n].id, es[n].write.session;
      && id in ss[n].docs && x in ss[n].sessions && ss[n].sessions[x].published == Some(es[n].write.outcome)
      && ss[n].sessions[x].id == id && ss[n].sessions[x].state == ss[n].docs[id].state
      && id in ss[n + 1].docs && x !in ss[n + 1].sessions
      && ss[n + 1].docs[id] == ss[n].docs[id].(
        state := es[n].write.outcome,
        failedState := if es[n].write.outcome.Failed? then ss[n].docs[id].state else Unset,
        leaseOwner := None, leaseExpires := 0, asyncId := None,
        dequeues := if es[n].write.outcome.Succeeded? then 0 else ss[n].docs[id].dequeues)
  {
    RunKeepsHeld(m, ss, es, n);
    assert ss[n + 1] == After(m, ss[n], es[n]);
    assert Matches(es[n].id, ss[n].docs[es[n].id], ss[n].sessions[es[n].write.session]);
  }

  /** Only the work on a deletion removes a document, and only the other two end with Succeeded. */
  lemma WorkDecidesTheEnd(m: Mode, ss: seq<State>, es: seq<Event>, n: nat, x: SessionId)
    requires IsRun(m, ss, es) && n < |es| && x in ss[n].sessions
    ensures es[n] == Remove(x) ==> Dispatch(ss[n].sessions[x].state).DeleteCluster?
    ensures es[n].Commit? && es[n].write.EndLease? && es[n].write.session == x && es[n].write.outcome.Succeeded? ==>
      Dispatch(ss[n].sessions[x].state).CreateCluster? || Dispatch(ss[n].sessions[x].state).UpdateCluster?
  {
    RunKeepsStore(m, ss, es, n);
    assert GoodSession(ss[n], ss[n].sessions[x]);
  }
}
