/**
 What holds of every execution, including those in which writes with nil options
 are unconditional, as the code has them.
 */
module AsWritten {
  import opened Wrappers
  import opened Documents
  import opened Protocol
  import opened StoreInvariants
  import opened Concurrency

  // ---- the state rules of a stored document ----

  lemma StoredDocumentsAreWellFormed(m: Mode, vs: seq<Server>, acts: seq<Action>, n: nat, id: DocId)
    requires IsExecution(m, vs, acts) && n < |vs| && id in vs[n].store.docs
    ensures WellFormed(vs[n].store.docs[id])
  {
    ExecutionKeepsServer(m, vs, acts, n);
    assert GoodDocument(vs[n].store, vs[n].store.docs[id]);
  }

  /** No writer meets a document, and no worker a session, in a state it has no branch for. */
  lemma UnexpectedBranchesAreDead(m: Mode, vs: seq<Server>, acts: seq<Action>, n: nat)
    requires IsExecution(m, vs, acts) && n < |vs|
    ensures forall id, w :: id in vs[n].store.docs ==> !Edit(w, vs[n].store.docs[id]).Unexpected?
    ensures forall f, w :: f in vs[n].flights ==> !Edit(w, vs[n].flights[f].base).Unexpected?
    ensures forall x :: x in vs[n].store.sessions ==> !Dispatch(vs[n].store.sessions[x].state).UnexpectedState?
  {
    ExecutionKeepsServer(m, vs, acts, n);
    forall id, w | id in vs[n].store.docs ensures !Edit(w, vs[n].store.docs[id]).Unexpected? {
      WellFormedIsExpected(vs[n].store.docs[id], w);
    }
    forall f, w | f in vs[n].flights ensures !Edit(w, vs[n].flights[f].base).Unexpected? {
      assert GoodFlight(vs[n], vs[n].flights[f]);
      WellFormedIsExpected(vs[n].flights[f].base, w);
    }
    forall x | x in vs[n].store.sessions ensures !Dispatch(vs[n].store.sessions[x].state).UnexpectedState? {
      assert GoodSession(vs[n].store, vs[n].store.sessions[x]);
    }
  }

  lemma WellFormedIsExpected(doc: Document, w: Write)
    requires WellFormed(doc)
    ensures !Edit(w, doc).Unexpected?
  {}

  /** Work that nobody holds is not left waiting for a lease to expire. */
  lemma UnownedWorkIsEligible(m: Mode, vs: seq<Server>, acts: seq<Action>, n: nat, id: DocId)
    requires IsExecution(m, vs, acts) && n < |vs| && id in vs[n].store.docs && vs[n].store.now > 0
    requires !Terminal(vs[n].store.docs[id].state) && vs[n].store.docs[id].leaseOwner.None?
    ensures Eligible(vs[n].store.docs[id], vs[n].store.now)
  {
    StoredDocumentsAreWellFormed(m, vs, acts, n, id);
  }

  // ---- unique keys ----

  lemma NoSharedKeys(m: Mode, vs: seq<Server>, acts: seq<Action>, n: nat, x: DocId, y: DocId)
    requires IsExecution(m, vs, acts) && n < |vs|
    requires x in vs[n].store.docs && y in vs[n].store.docs && x != y
    ensures vs[n].store.docs[x].identity.key != vs[n].store.docs[y].identity.key
    ensures vs[n].store.docs[x].identity.resourceGroupKey != vs[n].store.docs[y].identity.resourceGroupKey
  {
    ExecutionKeepsServer(m, vs, acts, n);
    UniqueEverywhere(vs[n].store, x, y);
  }

  // ---- races of Dequeue ----

  ghost predicate Finishes(v: Server, a: Action, id: DocId) {
    a.Finish? && a.flight in v.flights && v.flights[a.flight].id == id
  }

  /** A Dequeue is accepted only if the document is still in progress and expired at that moment. */
  lemma DequeueTakesExpiredDocument(m: Mode, vs: seq<Server>, acts: seq<Action>, n: nat, id: DocId)
    requires IsExecution(m, vs, acts) && n < |acts|
    requires Finishes(vs[n], acts[n], id) && vs[n].flights[acts[n].flight].write.Dequeue?
    ensures id in vs[n].store.docs && Eligible(vs[n].store.docs[id], vs[n].store.now)
    ensures var w := vs[n].flights[acts[n].flight].write;
      vs[n + 1].store.docs[id] ==
        Renewed(vs[n].store.docs[id].(leaseOwner := Some(w.uuid), dequeues := vs[n].store.docs[id].dequeues + 1),
                vs[n].store.now)
  {
    ExecutionKeepsServer(m, vs, acts, n);
    IfMatchIsAtomic(m, vs[n], acts[n].flight);
  }

  lemma ExecutionKeepsETags(m: Mode, vs: seq<Server>, acts: seq<Action>, n: nat)
    requires IsExecution(m, vs, acts) && n < |vs|
    ensures ETagInv(vs[n])
    ensures forall id :: id in vs[n].store.docs ==> id in vs[n].store.created
  {
    ExecutionKeepsServer(m, vs, acts, n);
  }

  lemma {:induction false} ETagsRise(m: Mode, vs: seq<Server>, acts: seq<Action>, i: nat, j: nat, id: DocId)
    requires IsExecution(m, vs, acts) && i <= j < |vs|
    requires id in vs[i].store.docs
    ensures id in vs[j].store.created
    ensures id in vs[j].etags ==> id in vs[i].etags && vs[i].etags[id] <= vs[j].etags[id]
    decreases j
  {
    ExecutionKeepsETags(m, vs, acts, i);
    if i < j {
      ETagsRise(m, vs, acts, i, j - 1, id);
      ExecutionKeepsETags(m, vs, acts, j - 1);
      ETagStep(m, vs[j - 1], acts[j - 1], id);
    }
  }

  lemma ETagStep(m: Mode, v: Server, a: Action, id: DocId)
    requires ETagInv(v) && Can(m, v, a) && id in v.store.created
    ensures id in Do(m, v, a).store.created
    ensures id in Do(m, v, a).etags ==> id in v.etags && v.etags[id] <= Do(m, v, a).etags[id]
  {}

  /** Of all the conditional writes computed from one stored version, at most one is accepted. */
  lemma OneWinnerPerVersion(m: Mode, vs: seq<Server>, acts: seq<Action>, i: nat, j: nat, id: DocId)
    requires IsExecution(m, vs, acts) && i < j < |acts|
    requires Finishes(vs[i], acts[i], id) && Finishes(vs[j], acts[j], id)
    requires SendsIfMatch(m, vs[i].flights[acts[i].flight].write)
    requires SendsIfMatch(m, vs[j].flights[acts[j].flight].write)
    ensures vs[i].flights[acts[i].flight].etag < vs[j].flights[acts[j].flight].etag
  {
    ExecutionKeepsServer(m, vs, acts, i);
    assert GoodFlight(vs[i], vs[i].flights[acts[i].flight]);
    assert vs[i + 1].etags[id] == vs[i].nextETag;
    ETagsRise(m, vs, acts, i + 1, j, id);
  }
}
