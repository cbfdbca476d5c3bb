/**
 Cluster documents as the resource provider stores them, and the pure edit that
 each kind of writer makes to the document it has read.

 The empty string of the source ("no owner", "no operation", "no failed state")
 is `None` for identifiers and `Unset` for provisioning states.  Identifiers
 that the source draws as random UUIDs are natural numbers here.
 */
module Documents {
  import opened Wrappers

  type DocId = nat
  type Uuid = nat
  type OperationId = nat
  type SessionId = nat

  const MAX_DEQUEUE_COUNT: nat := 5
  const LEASE_SECONDS: nat := 60

  datatype ProvisioningState = Unset | Creating | Updating | Deleting | Succeeded | Failed

  predicate Terminal(state: ProvisioningState) {
    state.Succeeded? || state.Failed?
  }

  predicate InProgress(state: ProvisioningState) {
    state.Creating? || state.Updating? || state.Deleting?
  }

  /** The fields that fix where a document lives and which unique keys it holds. */
  datatype Identity = Identity(
    key: string,
    partitionKey: string,
    resourceGroupKey: string)

  datatype Document = Document(
    identity: Identity,
    resourceGroupId: string,
    leaseOwner: Option<Uuid>,
    leaseExpires: nat,              // seconds; 0 when absent
    dequeues: nat,
    asyncId: Option<OperationId>,
    state: ProvisioningState,
    failedState: ProvisioningState,
    install: Option<int>,           // phase of the install in progress
    content: int)                   // everything else in the document

  /** What a holder of the lease may do with PatchWithLease. */
  datatype LeaseEdit = InitInstall | NextPhase | ClearInstall | SetContent(content: int)

  /** One read-modify-write of a cluster document. */
  datatype Write =
    | Dequeue(uuid: Uuid, session: SessionId)
    | Lease(uuid: Uuid)
    | PatchWithLease(uuid: Uuid, edit: LeaseEdit)
    | EndLease(uuid: Uuid, session: SessionId, outcome: ProvisioningState, failedState: ProvisioningState)
    | PutOrPatch(operation: OperationId, resourceGroupId: string, content: int)
    | RequestDelete(operation: OperationId)
    | SubscriptionDelete

  /** The result of the closure that edits a document; only `Edited` is written back. */
  datatype EditResult =
    | Edited(doc: Document)
    | LostLease
    | NotAllowed
    | Unexpected
    | NilDereference

  function EditUnderLease(edit: LeaseEdit, doc: Document): EditResult {
    match edit
    case InitInstall => Edited(if doc.install.None? then doc.(install := Some(0)) else doc)
    case NextPhase => if doc.install.None? then NilDereference else Edited(doc.(install := Some(doc.install.value + 1)))
    case ClearInstall => Edited(doc.(install := None))
    case SetContent(c) => Edited(doc.(content := c))
  }

  function EditEndLease(doc: Document, outcome: ProvisioningState, failedState: ProvisioningState): Document {
    doc.(state := outcome,
         failedState := failedState,
         leaseOwner := None,
         leaseExpires := 0,
         dequeues := if outcome.Succeeded? then 0 else doc.dequeues,
         asyncId := None)
  }

  /** The gate and the transition of PUT and PATCH on an existing cluster. */
  function EditPutOrPatch(doc: Document, operation: OperationId, resourceGroupId: string, content: int): EditResult {
    if !Terminal(doc.state) then NotAllowed
    else if doc.state.Failed? && (doc.failedState.Creating? || doc.failedState.Deleting?) then NotAllowed
    else if doc.state.Failed? && !doc.failedState.Updating? then Unexpected
    else if resourceGroupId != doc.resourceGroupId then NotAllowed
    else Edited(doc.(state := Updating,
                     failedState := if doc.state.Failed? then Unset else doc.failedState,
                     dequeues := 0,
                     asyncId := Some(operation),
                     content := content))
  }

  function EditRequestDelete(doc: Document, operation: OperationId): EditResult {
    if !Terminal(doc.state) then NotAllowed
    else Edited(doc.(state := Deleting, dequeues := 0, asyncId := Some(operation)))
  }

  function EditSubscriptionDelete(doc: Document): EditResult {
    match doc.state
    case Creating | Updating | Deleting => Edited(doc)
    case Succeeded | Failed => Edited(doc.(state := Deleting))
    case Unset => Unexpected
  }

  /** The states that the deletion of a subscription has to wait for. */
  predicate Busy(doc: Document) {
    doc.state.Creating? || doc.state.Updating?
  }

  /** The lease owner a write checks before it edits, if it checks one. */
  function Holder(w: Write): Option<Uuid> {
    match w
    case Lease(u) => Some(u)
    case PatchWithLease(u, _) => Some(u)
    case EndLease(u, _, _, _) => Some(u)
    case _ => None
  }

  /** What writer `w` makes of the document it has read. */
  function Edit(w: Write, doc: Document): EditResult {
    if Holder(w).Some? && doc.leaseOwner != Holder(w) then LostLease
    else
      match w
      case Dequeue(u, _) => Edited(doc.(leaseOwner := Some(u), dequeues := doc.dequeues + 1))
      case Lease(_) => Edited(doc)
      case PatchWithLease(_, edit) => EditUnderLease(edit, doc)
      case EndLease(_, _, outcome, failedState) => Edited(EditEndLease(doc, outcome, failedState))
      case PutOrPatch(op, rg, content) => EditPutOrPatch(doc, op, rg, content)
      case RequestDelete(op) => EditRequestDelete(doc, op)
      case SubscriptionDelete => EditSubscriptionDelete(doc)
  }

  predicate RunsRenewLease(w: Write) {
    w.Dequeue? || w.Lease?
  }

  /** The renewLease pre-trigger: the server stamps the expiry, `now` in milliseconds. */
  function Renewed(doc: Document, now: nat): Document {
    doc.(leaseExpires := now / 1000 + LEASE_SECONDS)
  }

  function Stamp(w: Write, doc: Document, now: nat): Document {
    if RunsRenewLease(w) then Renewed(doc, now) else doc
  }

  /** The filter of the Dequeue query at server time `now`. */
  predicate Eligible(doc: Document, now: nat) {
    !Terminal(doc.state) && doc.leaseExpires * 1000 < now
  }

  /** The writes that set the dequeue counter back to zero. */
  predicate ResetsDequeues(w: Write) {
    w.PutOrPatch? || w.RequestDelete? || (w.EndLease? && w.outcome.Succeeded?)
  }

  // ---- what the backend does with a dequeued document ----

  /** Which work the backend does for a dequeued document. */
  datatype Work = CreateCluster | UpdateCluster | DeleteCluster | UnexpectedState

  function Dispatch(state: ProvisioningState): Work {
    match state
    case Creating => CreateCluster
    case Updating => UpdateCluster
    case Deleting => DeleteCluster
    case _ => UnexpectedState
  }

  // ---- what every stored document satisfies ----

  predicate WellFormed(doc: Document) {
    && !doc.state.Unset?
    && (doc.state.Failed? ==> InProgress(doc.failedState))
    && (doc.state.Succeeded? || doc.state.Creating? || doc.state.Updating? ==> doc.failedState.Unset?)
    && (doc.state.Deleting? ==> !Terminal(doc.failedState))
    && (Terminal(doc.state) ==> doc.asyncId.None?)
    && (Terminal(doc.state) ==> doc.leaseOwner.None?)
    && (doc.leaseOwner.None? ==> doc.leaseExpires == 0)
  }
}
