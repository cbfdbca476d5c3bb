/**
 The dequeue counter: with conditional writes it counts every Dequeue since the
 last reset, so a document reaches a working handler at most five times.
 */
module DequeueLimit {
  import opened Wrappers
  import opened Documents
  import opened Protocol
  import opened StoreInvariants
  import opened Concurrency

  function Min(x: int, y: int): int {
    if x < y then x else y
  }

  predicate Resets(e: Event, id: DocId) {
    e.Commit? && e.id == id && ResetsDequeues(e.write)
  }

  /** The event hands document `id` to a session that goes on to work on it. */
  predicate HandsOut(s: State, e: Event, id: DocId) {
    && e.Commit? && e.id == id && e.write.Dequeue?
    && id in s.docs && s.docs[id].dequeues + 1 <= MAX_DEQUEUE_COUNT
  }

  /** How often document `id` is handed out by the events i..j-1. */
  ghost function Handed(ss: seq<State>, es: seq<Event>, id: DocId, i: nat, j: nat): nat
    requires i <= j <= |es| <= |ss|
    decreases j
  {
    if i == j then 0
    else Handed(ss, es, id, i, j - 1) + (if HandsOut(ss[j - 1], es[j - 1], id) then 1 else 0)
  }

  /** What one event that does not reset the counter of `id` does to it. */
  predicate Counts(s: State, e: Event, t: State, id: DocId) {
    && (id in s.created ==> id in t.created)
    && (id in s.created && id in t.docs ==>
          && id in s.docs
          && Min(t.docs[id].dequeues, MAX_DEQUEUE_COUNT)
             == Min(s.docs[id].dequeues, MAX_DEQUEUE_COUNT) + (if HandsOut(s, e, id) then 1 else 0))
  }

  lemma CounterStep(m: Mode, s: State, e: Event, id: DocId)
    requires Enabled(m, s, e) && !Resets(e, id)
    ensures Counts(s, e, After(m, s, e), id)
  {}

  lemma {:induction false} SumOfCounts(ss: seq<State>, es: seq<Event>, i: nat, j: nat, id: DocId)
    requires |ss| == |es| + 1 && i <= j < |ss|
    requires forall k :: i <= k < j ==> Counts(ss[k], es[k], ss[k + 1], id)
    requires id in ss[i].docs && id in ss[i].created
    ensures id in ss[j].created
    ensures id in ss[j].docs ==>
      Handed(ss, es, id, i, j)
      == Min(ss[j].docs[id].dequeues, MAX_DEQUEUE_COUNT) - Min(ss[i].docs[id].dequeues, MAX_DEQUEUE_COUNT)
    decreases j
  {
    if i < j {
      SumOfCounts(ss, es, i, j - 1, id);
      assert Counts(ss[j - 1], es[j - 1], ss[j - 1 + 1], id);
    }
  }

  /** Between resets, what the counter gains up to five is exactly the number of times the document is handed out. */
  lemma CounterCountsHandouts(m: Mode, ss: seq<State>, es: seq<Event>, i: nat, j: nat, id: DocId)
    requires IsRun(m, ss, es) && i <= j < |ss|
    requires id in ss[i].docs && id in ss[j].docs
    requires forall k :: i <= k < j ==> !Resets(es[k], id)
    ensures Handed(ss, es, id, i, j)
         == Min(ss[j].docs[id].dequeues, MAX_DEQUEUE_COUNT) - Min(ss[i].docs[id].dequeues, MAX_DEQUEUE_COUNT)
  {
    forall k | i <= k < j ensures Counts(ss[k], es[k], ss[k + 1], id) {
      CounterStep(m, ss[k], es[k], id);
    }
    RunKeepsStore(m, ss, es, i);
    assert GoodDocument(ss[i], ss[i].docs[id]);
    SumOfCounts(ss, es, i, j, id);
  }

  ghost predicate CounterIsExact(ss: seq<State>, es: seq<Event>) {
    |ss| == |es| + 1 &&
    forall i: nat, j: nat, id ::
      i <= j < |ss| && id in ss[i].docs && id in ss[j].docs && (forall k :: i <= k < j ==> !Resets(es[k], id))
      ==> Handed(ss, es, id, i, j)
          == Min(ss[j].docs[id].dequeues, MAX_DEQUEUE_COUNT) - Min(ss[i].docs[id].dequeues, MAX_DEQUEUE_COUNT)
  }

  /** In conditional mode, across all processes and crashes. */
  lemma CounterIsExactWhenConditional(m: Mode, vs: seq<Server>, acts: seq<Action>)
    requires m.conditional && IsExecution(m, vs, acts)
    ensures CounterIsExact(Stores(vs), Events(vs, acts))
  {
    ConditionalExecutionsAreAtomicRuns(m, vs, acts);
    var ss, es := Stores(vs), Events(vs, acts);
    forall i: nat, j: nat, id |
      i <= j < |ss| && id in ss[i].docs && id in ss[j].docs && (forall k :: i <= k < j ==> !Resets(es[k], id))
      ensures Handed(ss, es, id, i, j)
          == Min(ss[j].docs[id].dequeues, MAX_DEQUEUE_COUNT) - Min(ss[i].docs[id].dequeues, MAX_DEQUEUE_COUNT)
    {
      CounterCountsHandouts(m, ss, es, i, j, id);
    }
  }

  /** Between two resets a document is handed to a working handler at most five times. */
  ghost predicate BoundedHandouts(ss: seq<State>, es: seq<Event>) {
    |ss| == |es| + 1 &&
    forall i: nat, j: nat, id ::
      i <= j < |ss| && id in ss[i].docs && (forall k :: i <= k < j ==> !Resets(es[k], id))
      ==> Handed(ss, es, id, i, j) <= 5
  }

  lemma {:induction false} RunsBoundHandouts(m: Mode, ss: seq<State>, es: seq<Event>, i: nat, j: nat, id: DocId)
    requires IsRun(m, ss, es) && i <= j < |ss| && id in ss[i].docs
    requires forall k :: i <= k < j ==> !Resets(es[k], id)
    ensures Handed(ss, es, id, i, j) <= 5
    decreases j
  {
    hide Enabled, After;
    if i < j {
      RunsBoundHandouts(m, ss, es, i, j - 1, id);
      if id in ss[j - 1].docs {
        CounterCountsHandouts(m, ss, es, i, j - 1, id);
      }
    }
  }

  /** In conditional mode, across all processes and crashes. */
  lemma HandoutsAreBoundedWhenConditional(m: Mode, vs: seq<Server>, acts: seq<Action>)
    requires m.conditional && IsExecution(m, vs, acts)
    ensures BoundedHandouts(Stores(vs), Events(vs, acts))
  {
    ConditionalExecutionsAreAtomicRuns(m, vs, acts);
    var ss, es := Stores(vs), Events(vs, acts);
    forall i: nat, j: nat, id |
      i <= j < |ss| && id in ss[i].docs && (forall k :: i <= k < j ==> !Resets(es[k], id))
      ensures Handed(ss, es, id, i, j) <= 5
    {
      RunsBoundHandouts(m, ss, es, i, j, id);
    }
  }

  /**
   A handout starts a session that works on the document; any other Dequeue starts
   one that may only fail it.  Either knows the document it dequeued.
   */
  lemma HandoutsStartWork(m: Mode, ss: seq<State>, es: seq<Event>, n: nat, id: DocId)
    requires IsRun(m, ss, es) && n < |es| && es[n].Commit? && es[n].id == id && es[n].write.Dequeue?
    ensures var x := es[n].write.session;
      && x !in ss[n].sessions && x in ss[n + 1].sessions && id in ss[n + 1].docs
      && var session, doc := ss[n + 1].sessions[x], ss[n + 1].docs[id];
        && (session.overLimit <==> !HandsOut(ss[n], es[n], id))
        && session.uuid == es[n].write.uuid && doc.leaseOwner == Some(session.uuid)
        && session.id == id && session.key == doc.identity.key && session.state == doc.state
        && session.asyncId == doc.asyncId && session.published.None?
  {
    assert ss[n + 1] == After(m, ss[n], es[n]);
  }

  /** A new cluster has its whole budget. */
  lemma NewClustersHaveTheBudget(m: Mode, ss: seq<State>, es: seq<Event>, i: nat, j: nat, id: DocId)
    requires IsRun(m, ss, es) && i < j < |ss| && es[i].Create? && es[i].id == id && id in ss[j].docs
    requires forall k :: i < k < j ==> !Resets(es[k], id)
    ensures id in ss[i + 1].docs && ss[i + 1].docs[id].dequeues == 0
    ensures Handed(ss, es, id, i + 1, j) == Min(ss[j].docs[id].dequeues, MAX_DEQUEUE_COUNT)
  {
    assert ss[i + 1] == After(m, ss[i], es[i]);
    CounterCountsHandouts(m, ss, es, i + 1, j, id);
  }

  /** An exact counter allows at most five handouts between two resets. */
  lemma AtMostFiveHandouts(ss: seq<State>, es: seq<Event>, i: nat, j: nat, id: DocId)
    requires CounterIsExact(ss, es) && i <= j < |ss|
    requires id in ss[i].docs && id in ss[j].docs
    requires forall k :: i <= k < j ==> !Resets(es[k], id)
    ensures Handed(ss, es, id, i, j) <= MAX_DEQUEUE_COUNT
    ensures MAX_DEQUEUE_COUNT <= ss[i].docs[id].dequeues ==> Handed(ss, es, id, i, j) == 0
  {
    assert Handed(ss, es, id, i, j)
        == Min(ss[j].docs[id].dequeues, MAX_DEQUEUE_COUNT) - Min(ss[i].docs[id].dequeues, MAX_DEQUEUE_COUNT);
  }

  /** A reset gives a document its whole budget of five handouts back. */
  lemma ResetRestoresTheBudget(m: Mode, ss: seq<State>, es: seq<Event>, i: nat, j: nat, id: DocId)
    requires IsRun(m, ss, es) && i < j < |ss| && Resets(es[i], id) && id in ss[j].docs
    requires forall k :: i < k < j ==> !Resets(es[k], id)
    ensures id in ss[i + 1].docs && ss[i + 1].docs[id].dequeues == 0
    ensures Handed(ss, es, id, i + 1, j) == Min(ss[j].docs[id].dequeues, MAX_DEQUEUE_COUNT)
  {
    assert ss[i + 1] == After(m, ss[i], es[i]);
    CounterCountsHandouts(m, ss, es, i + 1, j, id);
  }

  /** A session beyond the limit can only commit Failed, and never removes the document. */
  lemma BeyondTheLimitOnlyFails(m: Mode, ss: seq<State>, es: seq<Event>, n: nat, x: SessionId)
    requires IsRun(m, ss, es) && n < |es|
    requires x in ss[n].sessions && ss[n].sessions[x].overLimit
    ensures es[n] != Remove(x)
    ensures es[n].Publish? && es[n].session == x ==> es[n].outcome.Failed?
    ensures es[n].Commit? && es[n].write.EndLease? && es[n].write.session == x ==> es[n].write.outcome.Failed?
  {
    RunKeepsStore(m, ss, es, n);
    assert GoodSession(ss[n], ss[n].sessions[x]);
  }

  /**
   Subscription deletion does not reset the counter: a cluster that failed for
   too many dequeues is never handed to a deleting handler on its account.
   */
  lemma SubscriptionDeletionKeepsTheCounter(m: Mode, ss: seq<State>, es: seq<Event>, i: nat, j: nat, id: DocId)
    requires IsRun(m, ss, es) && i < j < |ss|
    requires es[i] == Commit(SubscriptionDelete, id) && MAX_DEQUEUE_COUNT <= ss[i].docs[id].dequeues
    requires id in ss[j].docs
    requires forall k :: i < k < j ==> !Resets(es[k], id)
    ensures ss[i + 1].docs[id].state.Deleting? || !Terminal(ss[i].docs[id].state)
    ensures Handed(ss, es, id, i, j) == 0
  {
    CounterCountsHandouts(m, ss, es, i, j, id);
  }
}
