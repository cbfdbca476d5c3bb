/**
 What can always be done about a subscription that is to be deleted: from every state
 of every run a pass can be started, and if none of its clusters is busy it can mark
 them all and clear the flag.
 */
module SubscriptionProgress {
  import opened Wrappers
  import opened Documents
  import opened SP = SubscriptionProtocol
  import Progress

  ghost predicate Steps(conditional: bool, ss: seq<SP.State>, es: seq<SP.Event>) {
    && |ss| == |es| + 1
    && forall i :: 0 <= i < |es| ==> SP.Enabled(conditional, ss[i], es[i]) && ss[i + 1] == SP.After(conditional, ss[i], es[i])
  }

  /** The run can go on from `s` to `t`. */
  ghost predicate Leads(conditional: bool, s: SP.State, t: SP.State) {
    exists ss, es :: Steps(conditional, ss, es) && ss[0] == s && ss[|es|] == t
  }

  lemma LeadsNowhere(conditional: bool, s: SP.State)
    ensures Leads(conditional, s, s)
  {
    assert Steps(conditional, [s], []) && [s][0] == s;
  }

  lemma LeadsOn(conditional: bool, s: SP.State, t: SP.State, e: SP.Event)
    requires Leads(conditional, s, t) && SP.Enabled(conditional, t, e)
    ensures Leads(conditional, s, SP.After(conditional, t, e))
  {
    hide SP.Enabled, SP.After;
    var ss, es :| Steps(conditional, ss, es) && ss[0] == s && ss[|es|] == t;
    var ts, fs := ss + [SP.After(conditional, t, e)], es + [e];
    forall i | 0 <= i < |fs| ensures SP.Enabled(conditional, ts[i], fs[i]) && ts[i + 1] == SP.After(conditional, ts[i], fs[i]) {
      if i < |es| {
        assert ts[i] == ss[i] && ts[i + 1] == ss[i + 1] && fs[i] == es[i];
      }
    }
    assert Steps(conditional, ts, fs) && ts[0] == s && ts[|fs|] == SP.After(conditional, t, e);
  }

  /** A write that is read and sent with nothing in between. */
  lemma CanWrite(conditional: bool, s: SP.State, t: SP.State, w: SP.Write, id: SubscriptionId) returns (z: SP.State)
    requires Leads(conditional, s, t) && id in t.docs && SP.Guard(t, w, id) && SP.Edit(w, Some(t.docs[id].doc)).Some?
    requires w.Dequeue? ==> w.session !in t.sessions
    ensures Leads(conditional, s, z)
    ensures var doc := SP.Stamp(w, SP.Edit(w, Some(t.docs[id].doc)).value, t.now);
      && z.docs == t.docs[id := SP.Versioned(doc, t.nextETag)] && z.now == t.now && z.clusters == t.clusters
      && z.sessions == if w.Dequeue? then t.sessions[w.session := SP.NewSession(w, id, doc)] else t.sessions
  {
    hide Leads, SP.Edit;
    var f := Progress.Above(t.flights.Keys);
    assert f !in t.flights;
    LeadsOn(conditional, s, t, SP.Read(f, w, id));
    var read := SP.After(conditional, t, SP.Read(f, w, id));
    LeadsOn(conditional, s, read, SP.Commit(f));
    z := SP.After(conditional, read, SP.Commit(f));
  }

  /** Once the lease has expired, a new session takes the subscription. */
  lemma CanStart(conditional: bool, s: SP.State, id: SubscriptionId) returns (t: SP.State, u: Uuid, x: SessionId)
    requires id in s.docs && s.docs[id].doc.deleting
    ensures Leads(conditional, s, t) && t.clusters == s.clusters && id in t.docs
    ensures var doc := t.docs[id].doc;
      && doc.deleting && doc.state == s.docs[id].doc.state && doc.leaseOwner == Some(u) && doc.dequeues == s.docs[id].doc.dequeues + 1
      && t.sessions == s.sessions[x := SP.Session(u, id, [], 0, None, true, if doc.dequeues > MAX_DEQUEUE_COUNT then Some((false, true)) else None)]
  {
    hide Leads;
    LeadsNowhere(conditional, s);
    x := Progress.Above(s.sessions.Keys);
    u := 0;
    var wait := SP.Tick(s.docs[id].doc.leaseExpires * 1000 + 1);
    LeadsOn(conditional, s, s, wait);
    t := SP.After(conditional, s, wait);
    t := CanWrite(conditional, s, t, SP.Write.Dequeue(u, x), id);
  }

  /** The cluster is there, and the pass need not wait for it. */
  predicate Ready(s: SP.State, c: DocId) {
    c in s.clusters && !s.clusters[c].doc.state.Unset? && !Busy(s.clusters[c].doc)
  }

  predicate IsMarked(s: SP.State, c: DocId) {
    c in s.clusters && s.clusters[c].doc.state.Deleting?
  }

  predicate AtWork(s: SP.State, x: SessionId, u: Uuid, id: SubscriptionId, page: seq<DocId>, k: nat) {
    x in s.sessions && s.sessions[x] == SP.Session(u, id, page, k, None, true, None)
  }

  /** The pass marks the cluster it is at. */
  lemma CanMark(conditional: bool, s: SP.State, t: SP.State, x: SessionId, u: Uuid, id: SubscriptionId, page: seq<DocId>, k: nat)
    returns (z: SP.State)
    requires Leads(conditional, s, t) && AtWork(t, x, u, id, page, k) && k < |page| && Ready(t, page[k])
    ensures Leads(conditional, s, z) && AtWork(z, x, u, id, page, k + 1) && z.docs == t.docs
    ensures page[k] in z.clusters && z.clusters[page[k]].doc == t.clusters[page[k]].doc.(state := Deleting)
    ensures forall c :: c in t.clusters && c != page[k] ==> c in z.clusters && z.clusters[c] == t.clusters[c]
  {
    hide Leads;
    LeadsOn(conditional, s, t, SP.ReadCluster(x));
    var read := SP.After(conditional, t, SP.ReadCluster(x));
    LeadsOn(conditional, s, read, SP.CommitCluster(x));
    z := SP.After(conditional, read, SP.CommitCluster(x));
  }

  lemma {:induction false} CanMarkAll(conditional: bool, s: SP.State, t: SP.State, x: SessionId, u: Uuid, id: SubscriptionId, page: seq<DocId>, k: nat)
    returns (z: SP.State)
    requires Leads(conditional, s, t) && AtWork(t, x, u, id, page, k) && k <= |page|
    requires forall c :: c in page ==> Ready(t, c)
    requires forall i :: 0 <= i < k ==> IsMarked(t, page[i])
    ensures Leads(conditional, s, z) && AtWork(z, x, u, id, page, |page|) && z.docs == t.docs
    ensures forall i :: 0 <= i < |page| ==> IsMarked(z, page[i])
    decreases |page| - k
  {
    hide Leads, AtWork;
    if k == |page| {
      z := t;
    } else {
      z := CanMark(conditional, s, t, x, u, id, page, k);
      forall i | 0 <= i < k + 1 ensures IsMarked(z, page[i]) {
        if i < k {
          assert IsMarked(t, page[i]);
        }
      }
      z := CanMarkAll(conditional, s, z, x, u, id, page, k + 1);
    }
  }

  /** The over-limit session gives the subscription a new budget. */
  lemma CanRestoreBudget(conditional: bool, s: SP.State, id: SubscriptionId) returns (t: SP.State)
    requires id in s.docs && s.docs[id].doc.deleting
    ensures Leads(conditional, s, t) && t.clusters == s.clusters && id in t.docs
    ensures t.docs[id].doc.deleting && t.docs[id].doc.state == s.docs[id].doc.state && t.docs[id].doc.dequeues < MAX_DEQUEUE_COUNT
  {
    hide Leads;
    if s.docs[id].doc.dequeues < MAX_DEQUEUE_COUNT {
      LeadsNowhere(conditional, s);
      t := s;
    } else {
      var u, x;
      t, u, x := CanStart(conditional, s, id);
      t := CanWrite(conditional, s, t, SP.Write.EndLease(u, x, false, true), id);
    }
  }

  lemma {:induction false} LeadsAcross(conditional: bool, s: SP.State, ss: seq<SP.State>, es: seq<SP.Event>, n: nat)
    requires Steps(conditional, ss, es) && n < |ss| && Leads(conditional, s, ss[0])
    ensures Leads(conditional, s, ss[n])
  {
    hide SP.Enabled, SP.After, Leads;
    if n > 0 {
      LeadsAcross(conditional, s, ss, es, n - 1);
      LeadsOn(conditional, s, ss[n - 1], es[n - 1]);
    }
  }

  lemma LeadsFurther(conditional: bool, s: SP.State, t: SP.State, z: SP.State)
    requires Leads(conditional, s, t) && Leads(conditional, t, z)
    ensures Leads(conditional, s, z)
  {
    hide SP.Enabled, SP.After;
    var ss, es :| Steps(conditional, ss, es) && ss[0] == t && ss[|es|] == z;
    LeadsAcross(conditional, s, ss, es, |es|);
  }

  /**
   Whatever has happened before, if no cluster on the list is busy, a pass can mark
   them all as Deleting and clear the flag.
   */
  lemma FlagCanBeCleared(conditional: bool, s: SP.State, id: SubscriptionId, page: seq<DocId>) returns (t: SP.State)
    requires id in s.docs && s.docs[id].doc.deleting && forall c :: c in page ==> Ready(s, c)
    ensures Leads(conditional, s, t) && id in t.docs && !t.docs[id].doc.deleting && t.docs[id].doc.state == s.docs[id].doc.state
    ensures forall i :: 0 <= i < |page| ==> IsMarked(t, page[i])
  {
    hide Leads;
    var ready := CanRestoreBudget(conditional, s, id);
    var u, x;
    t, u, x := CanStart(conditional, ready, id);
    LeadsFurther(conditional, s, ready, t);
    LeadsOn(conditional, s, t, SP.List(x, page));
    t := SP.After(conditional, t, SP.List(x, page));
    assert [] + page == page;
    var marked := CanMarkAll(conditional, s, t, x, u, id, page, 0);
    LeadsOn(conditional, s, marked, SP.Finish(x));
    var finished := SP.After(conditional, marked, SP.Finish(x));
    t := CanWrite(conditional, s, finished, SP.Write.EndLease(u, x, true, false), id);
  }
}
