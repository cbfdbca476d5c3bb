/**
 Asynchronous operations: when the front end reveals an outcome, and that what it
 reveals is what was committed.
 */
module AsyncOperations {
  import opened Wrappers
  import opened Documents
  import opened Protocol
  import opened StoreInvariants
  import opened Concurrency
  import opened Lifecycle

  // ---- the readers ----

  /** Get by key: nothing, or the document that has it. */
  ghost predicate Reads(s: State, key: string, doc: Option<Document>) {
    match doc
    case None => forall id :: id in s.docs ==> s.docs[id].identity.key != key
    case Some(d) => exists id :: id in s.docs && s.docs[id] == d && d.identity.key == key
  }

  /** Both readers hide the outcome while the cluster document still carries the operation. */
  predicate Hidden(doc: Option<Document>, op: OperationId) {
    doc.Some? && doc.value.asyncId == Some(op)
  }

  /** The status that the operations-status endpoint reports. */
  function Status(async: AsyncDocument, doc: Option<Document>, op: OperationId): ProvisioningState {
    if Hidden(doc, op) then async.initial else async.state
  }

  // ---- release ----

  predicate Carries(s: State, id: DocId, op: OperationId) {
    id in s.docs && s.docs[id].asyncId == Some(op)
  }

  /** Event `e` takes the operation off the document that carries it, with the outcome `o`. */
  predicate ReleasesAs(s: State, e: Event, op: OperationId, o: ProvisioningState) {
    || (e.Commit? && e.write.EndLease? && Carries(s, e.id, op) && o == e.write.outcome)
    || (e.Remove? && e.session in s.sessions && Carries(s, s.sessions[e.session].id, op) && o == Succeeded)
  }

  ghost predicate CarriedInv(s: State) {
    forall op :: op in s.carried ==> op in s.released || exists id :: Carries(s, id, op)
  }

  ghost predicate ReleasedInv(s: State) {
    forall op :: op in s.released ==> op in s.carried && forall id :: !Carries(s, id, op)
  }

  ghost predicate DistinctInv(s: State) {
    forall x, y, op :: Carries(s, x, op) && Carries(s, y, op) ==> x == y
  }

  ghost predicate OperationsInv(s: State) {
    CarriedInv(s) && ReleasedInv(s) && DistinctInv(s)
  }

  /** What each event does to the operations that documents carry. */
  lemma StepCarries(m: Mode, s: State, e: Event, id: DocId, op: OperationId)
    requires Enabled(m, s, e) && DocsInv(s)
    ensures var t := After(m, s, e);
      && (Carries(t, id, op) ==> Carries(s, id, op) || (op !in s.carried && op in t.carried))
      && (Carries(s, id, op) ==> Carries(t, id, op) || op in t.released)
  {
    hide Enabled, After;
    if e.Commit? {
      CommitCarries(m, s, e.write, e.id, id, op);
    } else {
      DirectCarries(m, s, e, id, op);
    }
  }

  lemma CommitCarries(m: Mode, s: State, w: Write, x: DocId, id: DocId, op: OperationId)
    requires Enabled(m, s, Commit(w, x)) && DocsInv(s)
    ensures var t := After(m, s, Commit(w, x));
      && (Carries(t, id, op) ==> Carries(s, id, op) || (op !in s.carried && op in t.carried))
      && (Carries(s, id, op) ==> Carries(t, id, op) || op in t.released)
  {
    hide KnownOperation;
    assert x in s.docs ==> GoodDocument(s, s.docs[x]);
  }

  lemma DirectCarries(m: Mode, s: State, e: Event, id: DocId, op: OperationId)
    requires Enabled(m, s, e) && !e.Commit? && DocsInv(s)
    ensures var t := After(m, s, e);
      && (Carries(t, id, op) ==> Carries(s, id, op) || (op !in s.carried && op in t.carried))
      && (Carries(s, id, op) ==> Carries(t, id, op) || op in t.released)
  {
    hide ValidIdentity, GoodDocument;
  }

  lemma StepReleases(m: Mode, s: State, e: Event, op: OperationId)
    requires Enabled(m, s, e) && DocsInv(s)
    ensures var t := After(m, s, e);
      && (op in s.released ==> op in t.released)
      && (op in t.released && op !in s.released ==> exists id :: Carries(s, id, op))
      && (op in t.released && (op !in s.released || t.released[op] != s.released[op]) ==>
            ReleasesAs(s, e, op, t.released[op]))
  {
    if e.Commit? {
      assert Carries(s, e.id, op) || !Carries(s, e.id, op);
    }
    if e.Remove? {
      var id := s.sessions[e.session].id;
      assert Carries(s, id, op) || !Carries(s, id, op);
    }
  }

  /** The operation a document loses in a release is carried by no document afterwards. */
  lemma ReleasedIsGone(m: Mode, s: State, e: Event, op: OperationId, id: DocId)
    requires Enabled(m, s, e) && DocsInv(s) && OperationsInv(s)
    requires op in After(m, s, e).released
    ensures !Carries(After(m, s, e), id, op) && op in After(m, s, e).carried
  {
    var t := After(m, s, e);
    StepGrows(m, s, e);
    StepCarries(m, s, e, id, op);
    StepReleases(m, s, e, op);
    if op !in s.released {
      var y :| Carries(s, y, op);
      assert GoodDocument(s, s.docs[y]);
      assert ReleasesAs(s, e, op, t.released[op]);
    }
  }

  lemma NewlyCarried(m: Mode, s: State, e: Event, op: OperationId)
    requires Enabled(m, s, e) && op in After(m, s, e).carried && op !in s.carried
    ensures exists id :: Carries(After(m, s, e), id, op)
  {
    assert Carries(After(m, s, e), e.id, op);
  }

  lemma OneNewlyCarried(m: Mode, s: State, e: Event, op: OperationId, x: DocId, y: DocId)
    requires Enabled(m, s, e) && DocsInv(s)
    requires Carries(After(m, s, e), x, op) && Carries(After(m, s, e), y, op) && op !in s.carried
    ensures x == y
  {
    if x in s.docs {
      assert GoodDocument(s, s.docs[x]);
    }
    if y in s.docs {
      assert GoodDocument(s, s.docs[y]);
    }
  }

  lemma StepKeepsOperations(m: Mode, s: State, e: Event)
    requires Enabled(m, s, e) && DocsInv(s) && OperationsInv(s)
    ensures OperationsInv(After(m, s, e))
  {
    var t := After(m, s, e);
    forall op | op in t.carried ensures op in t.released || exists id :: Carries(t, id, op) {
      StepReleases(m, s, e, op);
      if op !in s.carried {
        NewlyCarried(m, s, e, op);
      } else if op !in s.released {
        var id :| Carries(s, id, op);
        StepCarries(m, s, e, id, op);
      }
    }
    forall op | op in t.released ensures op in t.carried && forall id :: !Carries(t, id, op) {
      forall id ensures !Carries(t, id, op) {
        ReleasedIsGone(m, s, e, op, id);
      }
      ReleasedIsGone(m, s, e, op, 0);
    }
    forall x, y, op | Carries(t, x, op) && Carries(t, y, op) ensures x == y {
      StepCarries(m, s, e, x, op);
      StepCarries(m, s, e, y, op);
      if op !in s.carried {
        OneNewlyCarried(m, s, e, op, x, y);
      }
    }
  }

  lemma {:induction false} RunKeepsOperations(m: Mode, ss: seq<State>, es: seq<Event>, n: nat)
    requires IsRun(m, ss, es) && n < |ss|
    ensures OperationsInv(ss[n])
  {
    if n > 0 {
      RunKeepsOperations(m, ss, es, n - 1);
      RunKeepsStore(m, ss, es, n - 1);
      StepKeepsOperations(m, ss[n - 1], es[n - 1]);
    }
  }

  /** Whatever the history records as released was released by an earlier event of the run. */
  lemma {:induction false} ReleaseHappened(m: Mode, ss: seq<State>, es: seq<Event>, n: nat, op: OperationId)
    requires IsRun(m, ss, es) && n < |ss| && op in ss[n].released
    ensures exists k :: 0 <= k < n && ReleasesAs(ss[k], es[k], op, ss[n].released[op])
  {
    if n > 0 {
      RunKeepsStore(m, ss, es, n - 1);
      StepReleases(m, ss[n - 1], es[n - 1], op);
      if op in ss[n - 1].released && ss[n].released[op] == ss[n - 1].released[op] {
        ReleaseHappened(m, ss, es, n - 1, op);
      }
    }
  }

  // ---- what the readers reveal ----

  /** If a reader that reads the operation in `s` and the cluster in `t` reports an outcome, it has been released. */
  lemma RevealedMeansReleased(s: State, t: State, op: OperationId, doc: Option<Document>)
    requires StoreInv(s) && op in s.asyncs
    requires StoreInv(t) && KeysInv(t) && OperationsInv(t) && Grows(s, t)
    requires Reads(t, s.asyncs[op].key, doc)
    requires Terminal(Status(s.asyncs[op], doc, op))
    ensures op in t.released
  {
    if op !in t.released {
      var id :| Carries(t, id, op);
      assert GoodDocument(t, t.docs[id]);
      var y :| y in t.docs && t.docs[y] == doc.value;
      if y != id {
        UniqueEverywhere(t, y, id);
      }
      assert false;
    }
  }

  lemma {:induction false} RunGrows(m: Mode, ss: seq<State>, es: seq<Event>, i: nat, j: nat)
    requires IsRun(m, ss, es) && i <= j < |ss|
    ensures Grows(ss[i], ss[j])
    decreases j
  {
    hide Grows, Enabled, After;
    if i < j {
      RunGrows(m, ss, es, i, j - 1);
      StepGrows(m, ss[j - 1], es[j - 1]);
      GrowsTransitive(ss[i], ss[j - 1], ss[j]);
    } else {
      GrowsReflexive(ss[i]);
    }
  }

  /** An outcome is revealed only after the carrying document released the operation by EndLease or removal. */
  ghost predicate RevealsOnlyReleased(ss: seq<State>, es: seq<Event>) {
    |ss| == |es| + 1 &&
    forall i, j, op, doc ::
      0 <= i <= j < |ss| && op in ss[i].asyncs && Reads(ss[j], ss[i].asyncs[op].key, doc)
      && Terminal(Status(ss[i].asyncs[op], doc, op))
      ==> exists k, o :: 0 <= k < j && ReleasesAs(ss[k], es[k], op, o)
  }

  lemma RunsRevealOnlyReleased(m: Mode, ss: seq<State>, es: seq<Event>)
    requires IsRun(m, ss, es)
    ensures RevealsOnlyReleased(ss, es)
  {
    forall i, j, op, doc |
      0 <= i <= j < |ss| && op in ss[i].asyncs && Reads(ss[j], ss[i].asyncs[op].key, doc)
      && Terminal(Status(ss[i].asyncs[op], doc, op))
      ensures exists k, o :: 0 <= k < j && ReleasesAs(ss[k], es[k], op, o)
    {
      RunKeepsStore(m, ss, es, i);
      RunKeepsStore(m, ss, es, j);
      RunKeepsOperations(m, ss, es, j);
      RunGrows(m, ss, es, i, j);
      RevealedMeansReleased(ss[i], ss[j], op, doc);
      ReleaseHappened(m, ss, es, j, op);
    }
  }

  /**
   The result endpoint answers 202 while the cluster document carries the
   operation.  Any other answer means that the operation has been released, or that
   no document has carried it; and if the operation had an outcome when it was read,
   as it does whenever it holds a copy of the cluster, that it has been released.
   */
  lemma ResultMeansReleasedOrNeverCarried(m: Mode, ss: seq<State>, es: seq<Event>, i: nat, j: nat, op: OperationId, doc: Option<Document>)
    requires IsRun(m, ss, es) && i <= j < |ss|
    requires op in ss[i].asyncs && Reads(ss[j], ss[i].asyncs[op].key, doc) && !Hidden(doc, op)
    ensures
      || op !in ss[j].carried
      || exists k, o :: 0 <= k < j && ReleasesAs(ss[k], es[k], op, o)
    ensures ss[i].asyncs[op].state != ss[i].asyncs[op].initial ==>
      exists k, o :: 0 <= k < j && ReleasesAs(ss[k], es[k], op, o)
  {
    hide Enabled, After;
    RunKeepsStore(m, ss, es, i);
    RunKeepsStore(m, ss, es, j);
    RunKeepsOperations(m, ss, es, j);
    RunGrows(m, ss, es, i, j);
    if op in ss[j].released {
      ReleaseHappened(m, ss, es, j, op);
    } else if op in ss[j].carried {
      CarriedIsHidden(ss[j], op, doc);
    }
  }

  lemma CarriedIsHidden(s: State, op: OperationId, doc: Option<Document>)
    requires StoreInv(s) && KeysInv(s) && OperationsInv(s) && op in s.carried && op !in s.released
    requires op in s.asyncs && Reads(s, s.asyncs[op].key, doc)
    ensures Hidden(doc, op)
  {
    var id :| Carries(s, id, op);
    assert GoodDocument(s, s.docs[id]);
    if doc.Some? {
      var y :| y in s.docs && s.docs[y] == doc.value;
      if y != id {
        UniqueEverywhere(s, y, id);
      }
    }
  }

  /** While the outcome is hidden, the status that is shown is the state of the cluster. */
  lemma HiddenStatusIsTheClusterState(m: Mode, ss: seq<State>, es: seq<Event>, i: nat, j: nat, op: OperationId, doc: Option<Document>)
    requires IsRun(m, ss, es) && i <= j < |ss|
    requires op in ss[i].asyncs && Reads(ss[j], ss[i].asyncs[op].key, doc) && Hidden(doc, op)
    ensures Status(ss[i].asyncs[op], doc, op) == doc.value.state && InProgress(doc.value.state)
  {
    hide Enabled, After;
    RunKeepsStore(m, ss, es, i);
    RunKeepsStore(m, ss, es, j);
    RunGrows(m, ss, es, i, j);
    var id :| id in ss[j].docs && ss[j].docs[id] == doc.value;
    assert GoodDocument(ss[j], ss[j].docs[id]);
  }

  lemma RevealsOnlyReleasedWhenConditional(m: Mode, vs: seq<Server>, acts: seq<Action>)
    requires m.conditional && IsExecution(m, vs, acts)
    ensures RevealsOnlyReleased(Stores(vs), Events(vs, acts))
  {
    ConditionalExecutionsAreAtomicRuns(m, vs, acts);
    RunsRevealOnlyReleased(m, Stores(vs), Events(vs, acts));
  }

  // ---- the revealed outcome is the committed one ----

  predicate Agrees(s: State, session: Session) {
    HoldsLease(s, session) && session.published.Some? && session.asyncId.Some? && session.asyncId.value in s.asyncs ==>
      s.asyncs[session.asyncId.value].state == session.published.value
  }

  ghost predicate PublishedInv(s: State) {
    forall x :: x in s.sessions ==> Agrees(s, s.sessions[x])
  }

  ghost predicate OutcomeInv(s: State) {
    forall op :: op in s.released ==> op in s.asyncs && s.asyncs[op].state == s.released[op]
  }

  /** Two sessions that hold leases and share an operation are the same session. */
  lemma OneHolder(s: State, x: SessionId, y: SessionId)
    requires HeldInv(s) && DistinctInv(s)
    requires x in s.sessions && y in s.sessions
    requires HoldsLease(s, s.sessions[x]) && HoldsLease(s, s.sessions[y])
    requires s.sessions[x].asyncId.Some? && s.sessions[x].asyncId == s.sessions[y].asyncId
    ensures x == y
    ensures Carries(s, s.sessions[x].id, s.sessions[x].asyncId.value)
  {
    var a, b := s.sessions[x], s.sessions[y];
    assert Matches(a.id, s.docs[a.id], a) && Matches(b.id, s.docs[b.id], b);
    assert Carries(s, a.id, a.asyncId.value) && Carries(s, b.id, b.asyncId.value);
  }

  lemma PublishKeepsOutcomes(m: Mode, s: State, e: Event)
    requires m.noStaleWrites && Enabled(m, s, e) && e.Publish?
    requires HeldInv(s) && OperationsInv(s) && PublishedInv(s) && OutcomeInv(s)
    ensures PublishedInv(After(m, s, e)) && OutcomeInv(After(m, s, e))
  {
    var t := After(m, s, e);
    var session := s.sessions[e.session];
    if session.asyncId.Some? {
      OneHolder(s, e.session, e.session);
    }
    forall x | x in t.sessions ensures Agrees(t, t.sessions[x]) {
      assert Agrees(s, s.sessions[x]);
      if x != e.session && HoldsLease(s, s.sessions[x]) && session.asyncId.Some?
         && s.sessions[x].asyncId == session.asyncId {
        OneHolder(s, x, e.session);
      }
    }
  }

  /** A commit other than Dequeue gives no session a lease that it did not hold. */
  lemma CommitKeepsPublished(m: Mode, s: State, w: Write, id: DocId)
    requires m.oneSession && Enabled(m, s, Commit(w, id))
    requires DocsInv(s) && HeldInv(s) && PublishedInv(s)
    ensures PublishedInv(After(m, s, Commit(w, id)))
  {
    var t := After(m, s, Commit(w, id));
    forall x | x in t.sessions ensures Agrees(t, t.sessions[x]) {
      if x in s.sessions && !(w.Dequeue? && x == w.session) {
        assert Agrees(s, s.sessions[x]);
        assert GoodDocument(s, s.docs[id]);
      }
    }
  }

  lemma CommitKeepsOutcomes(m: Mode, s: State, w: Write, id: DocId)
    requires m.oneSession && Enabled(m, s, Commit(w, id))
    requires StoreInv(s) && HeldInv(s) && PublishedInv(s) && OutcomeInv(s)
    ensures OutcomeInv(After(m, s, Commit(w, id)))
  {
    if w.EndLease? {
      assert Matches(id, s.docs[id], s.sessions[w.session]);
      assert Agrees(s, s.sessions[w.session]);
      assert GoodDocument(s, s.docs[id]);
    }
  }

  lemma RemoveKeepsOutcomes(m: Mode, s: State, e: Event)
    requires m.noStaleWrites && Enabled(m, s, e) && e.Remove?
    requires StoreInv(s) && HeldInv(s) && PublishedInv(s) && OutcomeInv(s)
    ensures PublishedInv(After(m, s, e)) && OutcomeInv(After(m, s, e))
  {
    var session := s.sessions[e.session];
    assert Matches(session.id, s.docs[session.id], session);
    assert Agrees(s, session);
    assert GoodDocument(s, s.docs[session.id]);
    var t := After(m, s, e);
    forall x | x in t.sessions ensures Agrees(t, t.sessions[x]) {
      assert Agrees(s, s.sessions[x]);
    }
  }

  lemma OtherKeepsOutcomes(m: Mode, s: State, e: Event)
    requires Enabled(m, s, e) && !e.Commit? && !e.Publish? && !e.Remove?
    requires StoreInv(s) && HeldInv(s) && OperationsInv(s) && PublishedInv(s) && OutcomeInv(s)
    ensures PublishedInv(After(m, s, e)) && OutcomeInv(After(m, s, e))
  {
    var t := After(m, s, e);
    forall x | x in t.sessions ensures Agrees(t, t.sessions[x]) {
      assert Agrees(s, s.sessions[x]);
      assert GoodSession(s, s.sessions[x]);
    }
  }

  lemma {:induction false} RunKeepsOutcomes(m: Mode, ss: seq<State>, es: seq<Event>, n: nat)
    requires m.oneSession && m.noStaleWrites && IsRun(m, ss, es) && n < |ss|
    ensures PublishedInv(ss[n]) && OutcomeInv(ss[n])
  {
    if n > 0 {
      var s, e := ss[n - 1], es[n - 1];
      RunKeepsOutcomes(m, ss, es, n - 1);
      RunKeepsStore(m, ss, es, n - 1);
      RunKeepsHeld(m, ss, es, n - 1);
      RunKeepsOperations(m, ss, es, n - 1);
      match e
      case Commit(w, id) =>
        CommitKeepsPublished(m, s, w, id);
        CommitKeepsOutcomes(m, s, w, id);
      case Publish(_, _) => PublishKeepsOutcomes(m, s, e);
      case Remove(_) => RemoveKeepsOutcomes(m, s, e);
      case _ => OtherKeepsOutcomes(m, s, e);
    }
  }

  lemma ReleaseRecordsOutcome(m: Mode, s: State, e: Event, op: OperationId, o: ProvisioningState)
    requires Enabled(m, s, e) && ReleasesAs(s, e, op, o)
    ensures op in After(m, s, e).released && After(m, s, e).released[op] == o
  {}

  lemma {:induction false} OutcomeStays(m: Mode, ss: seq<State>, es: seq<Event>, i: nat, j: nat, op: OperationId)
    requires IsRun(m, ss, es) && i <= j < |ss| && op in ss[i].released
    ensures op in ss[j].released && ss[j].released[op] == ss[i].released[op]
    decreases j
  {
    hide Enabled, After, KeysInv, DocsInv, SessionsInv, AsyncsInv;
    if i < j {
      OutcomeStays(m, ss, es, i, j - 1, op);
      RunKeepsStore(m, ss, es, j - 1);
      RunKeepsOperations(m, ss, es, j - 1);
      StepReleases(m, ss[j - 1], es[j - 1], op);
    }
  }

  /** From the moment it is released, an operation's stored state is the committed outcome, for ever. */
  ghost predicate OutcomesAreFinal(ss: seq<State>, es: seq<Event>) {
    |ss| == |es| + 1 &&
    forall k, j, op, o ::
      0 <= k < j < |ss| && ReleasesAs(ss[k], es[k], op, o)
      ==> op in ss[j].asyncs && ss[j].asyncs[op].state == o
  }

  /** In every run, what is shown when nothing is hidden is what the operation document says. */
  lemma ShownStatusIsStored(m: Mode, ss: seq<State>, es: seq<Event>, i: nat, j: nat, op: OperationId, doc: Option<Document>)
    requires IsRun(m, ss, es) && i <= j < |ss|
    requires op in ss[i].asyncs && Reads(ss[j], ss[i].asyncs[op].key, doc)
    ensures Status(ss[i].asyncs[op], doc, op) ==
      if exists id :: Carries(ss[j], id, op) then ss[i].asyncs[op].initial else ss[i].asyncs[op].state
  {
    hide Enabled, After;
    RunKeepsStore(m, ss, es, i);
    RunKeepsStore(m, ss, es, j);
    RunKeepsOperations(m, ss, es, j);
    RunGrows(m, ss, es, i, j);
    if id :| Carries(ss[j], id, op) {
      assert GoodDocument(ss[j], ss[j].docs[id]);
      CarriedIsHidden(ss[j], op, doc);
    }
    HiddenIsCarried(ss[j], ss[i].asyncs[op].key, op, doc);
  }

  lemma HiddenIsCarried(s: State, key: string, op: OperationId, doc: Option<Document>)
    requires Reads(s, key, doc)
    ensures Hidden(doc, op) ==> exists id :: Carries(s, id, op)
  {
    if Hidden(doc, op) {
      var y :| y in s.docs && s.docs[y] == doc.value;
      assert Carries(s, y, op);
    }
  }

  /** Whoever asks about an operation after its release is told its committed outcome. */
  ghost predicate OutcomesAreTold(ss: seq<State>, es: seq<Event>) {
    |ss| == |es| + 1 &&
    forall k, i, j, op, o, doc ::
      0 <= k < i <= j < |ss| && ReleasesAs(ss[k], es[k], op, o)
      && op in ss[i].asyncs && Reads(ss[j], ss[i].asyncs[op].key, doc)
      ==> Status(ss[i].asyncs[op], doc, op) == o
  }

  lemma OutcomesAreToldWhenLeasesAreRespected(m: Mode, vs: seq<Server>, acts: seq<Action>)
    requires m == Mode(true, true, true) && IsExecution(m, vs, acts)
    ensures OutcomesAreTold(Stores(vs), Events(vs, acts))
  {
    hide Can, Do;
    ConditionalExecutionsAreAtomicRuns(m, vs, acts);
    OutcomesAreFinalWhenLeasesAreRespected(m, vs, acts);
    var ss, es := Stores(vs), Events(vs, acts);
    forall k, i, j, op, o, doc |
      0 <= k < i <= j < |ss| && ReleasesAs(ss[k], es[k], op, o)
      && op in ss[i].asyncs && Reads(ss[j], ss[i].asyncs[op].key, doc)
      ensures Status(ss[i].asyncs[op], doc, op) == o
    {
      ReleasedStaysReleased(m, ss, es, k, j, op, o);
      ShownStatusIsStored(m, ss, es, i, j, op, doc);
    }
  }

  lemma ReleasedStaysReleased(m: Mode, ss: seq<State>, es: seq<Event>, k: nat, j: nat, op: OperationId, o: ProvisioningState)
    requires IsRun(m, ss, es) && k < j < |ss| && ReleasesAs(ss[k], es[k], op, o)
    ensures forall id :: !Carries(ss[j], id, op)
  {
    hide Enabled, After, ReleasesAs;
    ReleaseRecordsOutcome(m, ss[k], es[k], op, o);
    OutcomeStays(m, ss, es, k + 1, j, op);
    RunKeepsOperations(m, ss, es, j);
  }

  lemma OutcomesAreFinalWhenLeasesAreRespected(m: Mode, vs: seq<Server>, acts: seq<Action>)
    requires m == Mode(true, true, true) && IsExecution(m, vs, acts)
    ensures OutcomesAreFinal(Stores(vs), Events(vs, acts))
  {
    ConditionalExecutionsAreAtomicRuns(m, vs, acts);
    var ss, es := Stores(vs), Events(vs, acts);
    forall k, j, op, o | 0 <= k < j < |ss| && ReleasesAs(ss[k], es[k], op, o)
      ensures op in ss[j].asyncs && ss[j].asyncs[op].state == o
    {
      ReleaseRecordsOutcome(m, ss[k], es[k], op, o);
      OutcomeStays(m, ss, es, k + 1, j, op);
      RunKeepsOutcomes(m, ss, es, j);
    }
  }
}
