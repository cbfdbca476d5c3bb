/**
 The provisioning protocol as a state machine whose writes are atomic: front
 ends, any number of backend workers and the subscription backend act on the
 cluster documents and on the asynchronous-operation documents.

 `Concurrency` adds the interleaving of reads and writes and shows when it makes
 no difference.
 */
module Protocol {
  import opened Wrappers
  import opened Documents
  import opened Paths

  /**
   `conditional`: writes with nil options carry If-Match as well.
   `oneSession`: a process never dequeues a key while it still works on that key.
   `noStaleWrites`: a worker publishes an outcome or removes a document only
   while it holds the lease.
   */
  datatype Mode = Mode(conditional: bool, oneSession: bool, noStaleWrites: bool)

  datatype AsyncDocument = AsyncDocument(key: string, initial: ProvisioningState, state: ProvisioningState)

  /** A worker handling a document: the fields of the document it dequeued, and what it has published. */
  datatype Session = Session(
    uuid: Uuid,
    id: DocId,
    key: string,
    state: ProvisioningState,
    asyncId: Option<OperationId>,
    overLimit: bool,
    published: Option<ProvisioningState>)

  datatype State = State(
    now: nat,                                          // server clock, milliseconds
    docs: map<DocId, Document>,
    asyncs: map<OperationId, AsyncDocument>,
    sessions: map<SessionId, Session>,
    created: set<DocId>,                               // history: documents ever created
    carried: set<OperationId>,                         // history: operations a stored document has carried
    released: map<OperationId, ProvisioningState>)     // history: outcome committed by EndLease or removal

  datatype Event =
    | Tick(ms: nat)
    | NewAsync(operation: OperationId, key: string, initial: ProvisioningState)
    | Create(id: DocId, identity: Identity, resourceGroupId: string, operation: OperationId, content: int)
    | Commit(write: Write, id: DocId)
    | Publish(session: SessionId, outcome: ProvisioningState)
    | Remove(session: SessionId)
    | Abandon(session: SessionId)

  predicate Init(s: State) {
    s == State(s.now, map[], map[], map[], {}, {}, map[])
  }

  // ---- guards ----

  /** What Create and the static validator check of a new document's identity. */
  predicate ValidIdentity(identity: Identity, resourceGroupId: string) {
    && IsLower(identity.key)
    && identity.partitionKey == Subscription(identity.key)
    && Subscription(resourceGroupId) == Subscription(identity.key)
    && identity.resourceGroupKey == ToLower(resourceGroupId)
  }

  /** The store's unique-key policy compares documents of one partition only. */
  predicate Clash(x: Identity, y: Identity) {
    x.partitionKey == y.partitionKey && (x.key == y.key || x.resourceGroupKey == y.resourceGroupKey)
  }

  predicate FreshOperation(s: State, operation: OperationId, key: string, initial: ProvisioningState) {
    && operation in s.asyncs
    && operation !in s.carried
    && s.asyncs[operation].key == key
    && s.asyncs[operation].initial == initial
  }

  ghost predicate Lone(s: State, uuid: Uuid, key: string) {
    forall x :: x in s.sessions ==> !(s.sessions[x].uuid == uuid && s.sessions[x].key == key)
  }

  predicate MayEnd(w: Write, session: Session, key: string)
    requires w.EndLease?
  {
    && w.uuid == session.uuid
    && key == session.key
    && session.published == Some(w.outcome)
    && w.failedState == (if w.outcome.Failed? then session.state else Unset)
    && (w.outcome.Succeeded? ==> !session.state.Deleting?)
  }

  /** What must hold outside the document when `w` is written to document `id`. */
  ghost predicate Guard(m: Mode, s: State, w: Write, id: DocId)
    requires id in s.docs
  {
    var key := s.docs[id].identity.key;
    match w
    case Dequeue(u, x) => x !in s.sessions && (m.oneSession ==> Lone(s, u, key))
    case EndLease(_, x, _, _) => x in s.sessions && MayEnd(w, s.sessions[x], key)
    case PutOrPatch(op, _, _) => FreshOperation(s, op, key, Updating)
    case RequestDelete(op) => FreshOperation(s, op, key, Deleting)
    case _ => true
  }

  predicate HoldsLease(s: State, session: Session) {
    session.id in s.docs && s.docs[session.id].leaseOwner == Some(session.uuid)
  }

  predicate MayPublish(m: Mode, s: State, session: Session, outcome: ProvisioningState) {
    && Terminal(outcome)
    && (session.overLimit ==> outcome.Failed?)
    && (session.asyncId.Some? ==> session.asyncId.value in s.asyncs)
    && (m.noStaleWrites ==> HoldsLease(s, session))
  }

  predicate MayRemove(m: Mode, s: State, session: Session) {
    && session.state.Deleting?
    && session.published == Some(Succeeded)
    && session.id in s.docs
    && (m.noStaleWrites ==> HoldsLease(s, session))
  }

  // ---- effects ----

  function NewDocument(e: Event): Document
    requires e.Create?
  {
    Document(e.identity, e.resourceGroupId, None, 0, 0, Some(e.operation), Creating, Unset, None, e.content)
  }

  function NewSession(w: Write, id: DocId, doc: Document): Session
    requires w.Dequeue?
  {
    Session(w.uuid, id, doc.identity.key, doc.state, doc.asyncId, doc.dequeues > MAX_DEQUEUE_COUNT, None)
  }

  function Release(s: State, id: DocId, outcome: ProvisioningState): map<OperationId, ProvisioningState>
    requires id in s.docs
  {
    var op := s.docs[id].asyncId;
    if op.Some? then s.released[op.value := outcome] else s.released
  }

  /** Writer `w` stores `doc` as document `id`. */
  function Written(s: State, w: Write, id: DocId, doc: Document): State
    requires id in s.docs
  {
    var t := s.(docs := s.docs[id := doc]);
    match w
    case Dequeue(_, x) => t.(sessions := s.sessions[x := NewSession(w, id, doc)])
    case EndLease(_, x, outcome, _) => t.(sessions := s.sessions - {x}, released := Release(s, id, outcome))
    case PutOrPatch(op, _, _) => t.(carried := s.carried + {op})
    case RequestDelete(op) => t.(carried := s.carried + {op})
    case _ => t
  }

  /** The document that `w` stores at time `now` when it has read `base`. */
  function Result(w: Write, base: Document, now: nat): Document
    requires Edit(w, base).Edited?
  {
    Stamp(w, Edit(w, base).doc, now)
  }

  ghost predicate Enabled(m: Mode, s: State, e: Event) {
    match e
    case Tick(_) => true
    case NewAsync(op, _, initial) => op !in s.asyncs && InProgress(initial)
    case Create(id, identity, rg, op, _) =>
      && id !in s.created
      && ValidIdentity(identity, rg)
      && (forall x :: x in s.docs ==> !Clash(s.docs[x].identity, identity))
      && FreshOperation(s, op, identity.key, Creating)
    case Commit(w, id) =>
      && id in s.docs
      && Edit(w, s.docs[id]).Edited?
      && (w.Dequeue? ==> Eligible(s.docs[id], s.now))
      && Guard(m, s, w, id)
    case Publish(x, outcome) => x in s.sessions && MayPublish(m, s, s.sessions[x], outcome)
    case Remove(x) => x in s.sessions && MayRemove(m, s, s.sessions[x])
    case Abandon(x) => x in s.sessions
  }

  function Published(s: State, x: SessionId, outcome: ProvisioningState): State
    requires x in s.sessions
    requires s.sessions[x].asyncId.Some? ==> s.sessions[x].asyncId.value in s.asyncs
  {
    var session := s.sessions[x];
    s.(sessions := s.sessions[x := session.(published := Some(outcome))],
       asyncs := if session.asyncId.None? then s.asyncs else
         s.asyncs[session.asyncId.value := s.asyncs[session.asyncId.value].(state := outcome)])
  }

  function After(m: Mode, s: State, e: Event): State
    requires Enabled(m, s, e)
  {
    match e
    case Tick(ms) => s.(now := s.now + ms)
    case NewAsync(op, key, initial) => s.(asyncs := s.asyncs[op := AsyncDocument(key, initial, initial)])
    case Create(id, _, _, op, _) =>
      s.(docs := s.docs[id := NewDocument(e)], created := s.created + {id}, carried := s.carried + {op})
    case Commit(w, id) => Written(s, w, id, Result(w, s.docs[id], s.now))
    case Publish(x, outcome) => Published(s, x, outcome)
    case Remove(x) =>
      var id := s.sessions[x].id;
      s.(docs := s.docs - {id}, sessions := s.sessions - {x}, released := Release(s, id, Succeeded))
    case Abandon(x) => s.(sessions := s.sessions - {x})
  }

  // ---- runs ----

  ghost predicate Steps(m: Mode, ss: seq<State>, es: seq<Event>) {
    && |ss| == |es| + 1
    && forall i :: 0 <= i < |es| ==> Enabled(m, ss[i], es[i]) && ss[i + 1] == After(m, ss[i], es[i])
  }

  ghost predicate IsRun(m: Mode, ss: seq<State>, es: seq<Event>) {
    Steps(m, ss, es) && Init(ss[0])
  }
}
