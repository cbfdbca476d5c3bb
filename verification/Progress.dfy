/**
 What can always be done: from every state that a run can reach, in every mode, work
 can be finished, and clusters can be created, updated and deleted.
 */
module Progress {
  import opened Wrappers
  import opened Documents
  import opened Protocol
  import opened StoreInvariants
  import opened WriteEffects

  // ---- continuations ----

  /** The run can go on from `s` to `t`. */
  ghost predicate Leads(m: Mode, s: State, t: State) {
    exists ss, es :: Steps(m, ss, es) && ss[0] == s && ss[|es|] == t
  }

  lemma LeadsNowhere(m: Mode, s: State)
    ensures Leads(m, s, s)
  {
    assert Steps(m, [s], []) && [s][0] == s;
  }

  lemma LeadsOn(m: Mode, s: State, t: State, e: Event)
    requires Leads(m, s, t) && Enabled(m, t, e)
    ensures Leads(m, s, After(m, t, e))
  {
    hide Enabled, After;
    var ss, es :| Steps(m, ss, es) && ss[0] == s && ss[|es|] == t;
    var ts, fs := ss + [After(m, t, e)], es + [e];
    forall i | 0 <= i < |fs| ensures Enabled(m, ts[i], fs[i]) && ts[i + 1] == After(m, ts[i], fs[i]) {
      if i < |es| {
        assert ts[i] == ss[i] && ts[i + 1] == ss[i + 1] && fs[i] == es[i];
      }
    }
    assert Steps(m, ts, fs) && ts[0] == s && ts[|fs|] == After(m, t, e);
  }

  lemma {:induction false} LeadsAcross(m: Mode, s: State, ss: seq<State>, es: seq<Event>, n: nat)
    requires Steps(m, ss, es) && n < |ss| && Leads(m, s, ss[0])
    ensures Leads(m, s, ss[n])
  {
    hide Enabled, After, Leads;
    if n > 0 {
      LeadsAcross(m, s, ss, es, n - 1);
      LeadsOn(m, s, ss[n - 1], es[n - 1]);
    }
  }

  lemma LeadsFurther(m: Mode, s: State, t: State, u: State)
    requires Leads(m, s, t) && Leads(m, t, u)
    ensures Leads(m, s, u)
  {
    hide Enabled, After;
    var ss, es :| Steps(m, ss, es) && ss[0] == t && ss[|es|] == u;
    LeadsAcross(m, s, ss, es, |es|);
  }

  lemma {:induction false} StepsKeepStore(m: Mode, ss: seq<State>, es: seq<Event>, n: nat)
    requires Steps(m, ss, es) && n < |ss| && StoreInv(ss[0]) && KeysInv(ss[0])
    ensures StoreInv(ss[n]) && KeysInv(ss[n])
  {
    hide Enabled, After, StoreInv, KeysInv;
    if n > 0 {
      StepsKeepStore(m, ss, es, n - 1);
      StepKeepsStore(m, ss[n - 1], es[n - 1]);
    }
  }

  lemma LeadsKeepsStore(m: Mode, s: State, t: State)
    requires Leads(m, s, t) && StoreInv(s) && KeysInv(s)
    ensures StoreInv(t) && KeysInv(t)
  {
    hide Enabled, After, StoreInv, KeysInv;
    var ss, es :| Steps(m, ss, es) && ss[0] == s && ss[|es|] == t;
    StepsKeepStore(m, ss, es, |es|);
  }

  lemma {:induction false} Above(s: set<nat>) returns (n: nat)
    ensures forall x :: x in s ==> x < n
    decreases |s|
  {
    if s == {} {
      n := 0;
    } else {
      var x :| x in s;
      var k := Above(s - {x});
      n := if k <= x then x + 1 else k;
      forall y | y in s ensures y < n {
        if y != x {
          assert y in s - {x};
        }
      }
    }
  }

  // ---- finishing work ----

  /** A worker, new to the document, dequeues it once its lease has expired. */
  lemma CanDequeue(m: Mode, s: State, id: DocId) returns (t: State, u: Uuid, x: SessionId, now: nat)
    requires id in s.docs && InProgress(s.docs[id].state)
    ensures Leads(m, s, t) && t.asyncs == s.asyncs && t.created == s.created
    ensures t.docs == s.docs[id := Renewed(s.docs[id].(leaseOwner := Some(u), dequeues := s.docs[id].dequeues + 1), now)]
    ensures var doc := s.docs[id];
      t.sessions == s.sessions[x := Session(u, id, doc.identity.key, doc.state, doc.asyncId, doc.dequeues + 1 > MAX_DEQUEUE_COUNT, None)]
  {
    hide Leads;
    LeadsNowhere(m, s);
    x := Above(s.sessions.Keys);
    var uuids := set y | y in s.sessions :: s.sessions[y].uuid;
    u := Above(uuids);
    assert forall y :: y in s.sessions ==> s.sessions[y].uuid in uuids;
    var wait := Tick(s.docs[id].leaseExpires * 1000 + 1);
    LeadsOn(m, s, s, wait);
    var later := s.(now := s.now + s.docs[id].leaseExpires * 1000 + 1);
    assert After(m, s, wait) == later;
    now := later.now;
    var take := Commit(Dequeue(u, x), id);
    assert Lone(later, u, s.docs[id].identity.key);
    LeadsOn(m, s, later, take);
    t := After(m, later, take);
  }

  /** The worker publishes any outcome it may, and commits it. */
  lemma CanEnd(m: Mode, s: State, t: State, id: DocId, x: SessionId, outcome: ProvisioningState) returns (z: State)
    requires Leads(m, s, t) && x in t.sessions && id in t.docs && t.sessions[x].id == id && Terminal(outcome)
    requires var session, doc := t.sessions[x], t.docs[id];
      && doc.leaseOwner == Some(session.uuid) && session.key == doc.identity.key && session.state == doc.state
      && (session.asyncId.Some? ==> session.asyncId.value in t.asyncs) && (session.overLimit ==> outcome.Failed?)
    ensures Leads(m, s, z)
    ensures if t.sessions[x].state.Deleting? && outcome.Succeeded? then z.docs == t.docs - {id}
      else z.docs == t.docs[id := EditEndLease(t.docs[id], outcome, if outcome.Failed? then t.docs[id].state else Unset)]
  {
    hide Leads;
    var tell := Publish(x, outcome);
    LeadsOn(m, s, t, tell);
    var told := After(m, t, tell);
    var session := t.sessions[x];
    var end := if session.state.Deleting? && outcome.Succeeded? then Remove(x)
      else Commit(EndLease(session.uuid, x, outcome, if outcome.Failed? then session.state else Unset), id);
    LeadsOn(m, s, told, end);
    z := After(m, told, end);
  }

  /**
   From every state, work in progress can be brought to any outcome that the limit
   allows: a deletion that succeeds removes the document, everything else stores the
   outcome and nothing else.
   */
  lemma WorkCanBeFinished(m: Mode, s: State, id: DocId, outcome: ProvisioningState) returns (t: State)
    requires StoreInv(s) && KeysInv(s) && id in s.docs && InProgress(s.docs[id].state) && Terminal(outcome)
    requires outcome.Succeeded? ==> s.docs[id].dequeues < MAX_DEQUEUE_COUNT
    ensures Leads(m, s, t)
    ensures if s.docs[id].state.Deleting? && outcome.Succeeded? then t.docs == s.docs - {id}
      else t.docs == s.docs[id := s.docs[id].(
        state := outcome,
        failedState := if outcome.Failed? then s.docs[id].state else Unset,
        leaseOwner := None, leaseExpires := 0, asyncId := None,
        dequeues := if outcome.Succeeded? then 0 else s.docs[id].dequeues + 1)]
  {
    hide Leads, KeysInv, Enabled, After, Edit;
    assert GoodDocument(s, s.docs[id]);
    var taken, u, x, now := CanDequeue(m, s, id);
    t := CanEnd(m, s, taken, id, x, outcome);
    assert s.docs[id := taken.docs[id]] == taken.docs;
  }

  // ---- requests ----

  lemma CanAnnounce(m: Mode, s: State, key: string, initial: ProvisioningState) returns (t: State, op: OperationId)
    requires StoreInv(s) && InProgress(initial)
    ensures Leads(m, s, t) && t.docs == s.docs && t.sessions == s.sessions && t.created == s.created
    ensures FreshOperation(t, op, key, initial)
  {
    hide Leads;
    LeadsNowhere(m, s);
    op := Above(s.asyncs.Keys);
    LeadsOn(m, s, s, NewAsync(op, key, initial));
    t := After(m, s, NewAsync(op, key, initial));
  }

  /**
   A fresh DELETE of a cluster is accepted in every state of every run exactly if
   the cluster is Succeeded or Failed, whatever has failed, and leaves it Deleting.
   */
  lemma DeletionIsAccepted(m: Mode, ss: seq<State>, es: seq<Event>, n: nat, id: DocId, op: OperationId)
    requires IsRun(m, ss, es) && n < |ss| && id in ss[n].docs && FreshOperation(ss[n], op, ss[n].docs[id].identity.key, Deleting)
    ensures Enabled(m, ss[n], Commit(RequestDelete(op), id)) <==>
      ss[n].docs[id].state == Succeeded || ss[n].docs[id].state == Failed
    ensures Enabled(m, ss[n], Commit(RequestDelete(op), id)) ==>
      After(m, ss[n], Commit(RequestDelete(op), id)).docs ==
        ss[n].docs[id := ss[n].docs[id].(state := Deleting, dequeues := 0, asyncId := Some(op))]
  {
    hide Edit;
    DeleteIsAccepted(ss[n].docs[id], op);
  }

  lemma CanRequestDelete(m: Mode, s: State, id: DocId) returns (t: State)
    requires StoreInv(s) && id in s.docs && Terminal(s.docs[id].state)
    ensures Leads(m, s, t) && id in t.docs && t.docs[id].state.Deleting? && t.docs[id].dequeues == 0
    ensures forall y :: y != id ==> (y in t.docs <==> y in s.docs) && (y in s.docs ==> t.docs[y] == s.docs[y])
  {
    hide Leads;
    var op;
    t, op := CanAnnounce(m, s, s.docs[id].identity.key, Deleting);
    LeadsOn(m, s, t, Commit(RequestDelete(op), id));
    t := After(m, t, Commit(RequestDelete(op), id));
  }

  /** From every state of every run, every cluster can be removed, and nothing else need change. */
  lemma EveryClusterCanBeRemoved(m: Mode, ss: seq<State>, es: seq<Event>, n: nat, id: DocId) returns (t: State)
    requires IsRun(m, ss, es) && n < |ss| && id in ss[n].docs
    ensures Leads(m, ss[n], t) && t.docs == ss[n].docs - {id}
  {
    hide Leads, Enabled, After, StoreInv, KeysInv;
    var s := ss[n];
    RunKeepsStore(m, ss, es, n);
    var ended := s;
    if !Terminal(s.docs[id].state) {
      StoredState(s, id);
      ended := WorkCanBeFinished(m, s, id, Failed);
    } else {
      LeadsNowhere(m, s);
    }
    LeadsKeepsStore(m, s, ended);
    var asked := CanRequestDelete(m, ended, id);
    LeadsFurther(m, s, ended, asked);
    LeadsKeepsStore(m, s, asked);
    t := WorkCanBeFinished(m, asked, id, Succeeded);
    LeadsFurther(m, s, asked, t);
    assert t.docs == s.docs - {id};
  }

  lemma StoredState(s: State, id: DocId)
    requires StoreInv(s) && id in s.docs
    ensures Terminal(s.docs[id].state) || InProgress(s.docs[id].state)
  {
    assert GoodDocument(s, s.docs[id]);
  }

  /** An update of a cluster that is in order, or whose last update failed, is accepted and can succeed with its content. */
  lemma UpdatesCanSucceed(m: Mode, ss: seq<State>, es: seq<Event>, n: nat, id: DocId, content: int) returns (t: State)
    requires IsRun(m, ss, es) && n < |ss| && id in ss[n].docs
    requires var doc := ss[n].docs[id]; doc.state.Succeeded? || (doc.state.Failed? && doc.failedState.Updating?)
    ensures Leads(m, ss[n], t) && id in t.docs
    ensures t.docs[id].state.Succeeded? && t.docs[id].content == content
  {
    hide Leads, KeysInv;
    var s := ss[n];
    RunKeepsStore(m, ss, es, n);
    var told, op := CanAnnounce(m, s, s.docs[id].identity.key, Updating);
    var put := Commit(PutOrPatch(op, s.docs[id].resourceGroupId, content), id);
    LeadsOn(m, s, told, put);
    var asked := After(m, told, put);
    LeadsKeepsStore(m, s, asked);
    t := WorkCanBeFinished(m, asked, id, Succeeded);
    LeadsFurther(m, s, asked, t);
  }

  /** A cluster whose IDs are accepted and clash with no stored one can be created, and its creation can succeed. */
  lemma ClustersCanBeCreated(m: Mode, ss: seq<State>, es: seq<Event>, n: nat, identity: Identity, rg: string, content: int)
    returns (t: State, id: DocId)
    requires IsRun(m, ss, es) && n < |ss| && ValidIdentity(identity, rg)
    requires forall x :: x in ss[n].docs ==> !Clash(ss[n].docs[x].identity, identity)
    ensures Leads(m, ss[n], t) && id !in ss[n].docs && id in t.docs
    ensures t.docs[id].identity == identity && t.docs[id].state.Succeeded? && t.docs[id].content == content
  {
    hide Leads, KeysInv, ValidIdentity;
    var s := ss[n];
    RunKeepsStore(m, ss, es, n);
    var told, op := CanAnnounce(m, s, identity.key, Creating);
    id := Above(s.created);
    assert id !in s.created;
    assert id !in s.docs;
    var create := Create(id, identity, rg, op, content);
    LeadsOn(m, s, told, create);
    var asked := After(m, told, create);
    LeadsKeepsStore(m, s, asked);
    t := WorkCanBeFinished(m, asked, id, Succeeded);
    LeadsFurther(m, s, asked, t);
  }
}
