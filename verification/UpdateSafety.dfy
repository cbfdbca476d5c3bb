/**
 PUT and PATCH on an existing cluster: whatever the request says, an accepted
 update changes tags, worker counts and the two state fields and nothing else.
 */
module UpdateSafety {
  import opened Wrappers
  import E = External
  import I = Internal
  import C = Conversion
  import D = Documents
  import opened Immutable
  import opened DeltaValidation

  datatype Verdict = Accept | NotTerminal | CreationFailed | DeletionFailed | Unexpected | BadRequest | ChangeNotAllowed

  /** The state gate, and what it makes of the failed state. */
  function Gate(oc: I.Cluster): Verdict {
    var p := oc.properties;
    if p.provisioningState != "Succeeded" && p.provisioningState != "Failed" then NotTerminal
    else if p.provisioningState != "Failed" || p.failedProvisioningState == "Updating" then Accept
    else if p.failedProvisioningState == "Creating" then CreationFailed
    else if p.failedProvisioningState == "Deleting" then DeletionFailed
    else Unexpected
  }

  /** The failed state of an update is forgotten before the next one starts. */
  function Cleared(oc: I.Cluster): I.Cluster {
    if oc.properties.provisioningState == "Failed" then oc.(properties := oc.properties.(failedProvisioningState := "")) else oc
  }

  /** What the handler stores for the request `e`. */
  function Updated(e: E.Cluster, oc: I.Cluster): I.Cluster {
    var c := C.Stored(e, Cleared(oc));
    c.(id := oc.id, name := oc.name, typ := oc.typ, properties := c.properties.(provisioningState := "Updating"))
  }

  ghost predicate Permitted(fold: char -> char, e: E.Cluster, oc: I.Cluster) {
    Gate(oc).Accept? && SameCluster(EnvOf(fold), e, C.View(oc))
  }

  // ---- the code ----

  method Enumerate(tags: Option<map<string, string>>) returns (order: seq<string>)
    ensures Enumerates(order, tags)
  {
    order := [];
    if tags.Some? {
      var left := tags.value.Keys;
      while left != {}
        invariant left <= tags.value.Keys
        invariant forall k :: k in order <==> k in tags.value.Keys - left
        invariant forall i, j :: 0 <= i < j < |order| ==> order[i] != order[j]
        decreases left
      {
        var k :| k in left;
        assert forall x :: x in order + [k] <==> x in order || x == k;
        order := order + [k];
        left := left - {k};
      }
    }
  }

  /** validateDelta. */
  method ValidateDelta(fold: char -> char, e: E.Cluster, current: E.Cluster) returns (ok: bool)
    ensures ok <==> SameCluster(EnvOf(fold), e, current)
  {
    var order := Enumerate(e.tags);
    var order' := Enumerate(current.tags);
    DeltaAccepts(EnvOf(fold), e, current, order, order');
    ok := Validate(EnvOf(fold), [], PointerTo(ClusterValue(e, order)), PointerTo(ClusterValue(current, order')), false).Accepted?;
  }

  /**
   The handler on the document it has read.  `valid` are the absolute checks of the
   static validator.  A refused request is not written back.
   */
  method PutOrPatch(fold: char -> char, valid: E.Cluster -> bool, doc: C.Document, e: E.Cluster) returns (verdict: Verdict)
    modifies doc
    ensures verdict.Accept? <==> valid(e) && Permitted(fold, e, old(doc.cluster))
    ensures verdict.Accept? ==> doc.cluster == Updated(e, old(doc.cluster))
    ensures !verdict.Accept? ==> doc.cluster == old(doc.cluster) || doc.cluster == Cleared(old(doc.cluster))
    ensures var p := old(doc.cluster).properties;
      && (verdict.NotTerminal? <==> p.provisioningState != "Succeeded" && p.provisioningState != "Failed")
      && (verdict.CreationFailed? <==> p.provisioningState == "Failed" && p.failedProvisioningState == "Creating")
      && (verdict.DeletionFailed? <==> p.provisioningState == "Failed" && p.failedProvisioningState == "Deleting")
      && (verdict.Unexpected? <==> p.provisioningState == "Failed" && p.failedProvisioningState !in ["Creating", "Updating", "Deleting"])
    ensures verdict.BadRequest? <==> Gate(old(doc.cluster)).Accept? && !valid(e)
    ensures verdict.ChangeNotAllowed? <==>
      Gate(old(doc.cluster)).Accept? && valid(e) && !SameCluster(EnvOf(fold), e, C.View(old(doc.cluster)))
    ensures Gate(old(doc.cluster)).Accept? <==>
      var p := old(doc.cluster).properties;
      p.provisioningState == "Succeeded" || (p.provisioningState == "Failed" && p.failedProvisioningState == "Updating")
  {
    hide SameCluster;
    var p := doc.cluster.properties;
    if p.provisioningState != "Succeeded" && p.provisioningState != "Failed" {
      return NotTerminal;
    }
    if p.provisioningState == "Failed" {
      if p.failedProvisioningState == "Creating" {
        return CreationFailed;
      } else if p.failedProvisioningState == "Updating" {
        doc.cluster := doc.cluster.(properties := p.(failedProvisioningState := ""));
      } else if p.failedProvisioningState == "Deleting" {
        return DeletionFailed;
      } else {
        return Unexpected;
      }
    }
    if !valid(e) {
      return BadRequest;
    }
    assert C.View(doc.cluster) == C.View(old(doc.cluster));
    var current := C.ToExternal(doc.cluster);
    var same := ValidateDelta(fold, e, current);
    if !same {
      return ChangeNotAllowed;
    }
    var id, name, typ := doc.cluster.id, doc.cluster.name, doc.cluster.typ;
    C.ToInternal(e, doc);
    doc.cluster := doc.cluster.(id := id, name := name, typ := typ);
    doc.cluster := doc.cluster.(properties := doc.cluster.properties.(provisioningState := "Updating"));
    verdict := Accept;
  }

  // ---- what a user may change ----

  function StripIngress(p: I.IngressProfile): I.IngressProfile { p.(missing := map[]) }

  function FreezeWorker(p: I.WorkerProfile): I.WorkerProfile { p.(missing := map[], count := 0) }

  /** The cluster without tags, worker counts and states, and without unknown fields in list elements. */
  function Frozen(oc: I.Cluster): I.Cluster {
    oc.(tags := None,
        properties := oc.properties.(
          provisioningState := "",
          failedProvisioningState := "",
          workerProfiles := C.MapOption(FreezeWorker, oc.properties.workerProfiles),
          ingressProfiles := C.MapOption(StripIngress, oc.properties.ingressProfiles)))
  }

  lemma WorkersFrozen(ps: Option<seq<E.WorkerProfile>>, ws: Option<seq<I.WorkerProfile>>)
    requires SameWorkers(ps, C.MapOption(C.ViewWorker, ws))
    ensures C.MapOption(FreezeWorker, C.MapOption(C.StoreWorker, ps)) == C.MapOption(FreezeWorker, ws)
  {
    if ps.Some? {
      var xs, ys := C.Map(FreezeWorker, C.Map(C.StoreWorker, ps.value)), C.Map(FreezeWorker, ws.value);
      forall i | 0 <= i < |xs| ensures xs[i] == ys[i] {
        assert SameWorker(ps.value[i], C.ViewWorker(ws.value[i]));
      }
      assert xs == ys;
    }
  }

  lemma IngressesFrozen(ns: Option<seq<I.IngressProfile>>)
    ensures C.MapOption(StripIngress, C.MapOption(C.StoreIngress, C.MapOption(C.ViewIngress, ns))) == C.MapOption(StripIngress, ns)
  {
    if ns.Some? {
      assert C.Map(StripIngress, C.Map(C.StoreIngress, C.Map(C.ViewIngress, ns.value))) == C.Map(StripIngress, ns.value);
    }
  }

  /** An accepted request changes only tags, worker counts and the two states. */
  lemma UpdateKeepsFrozen(fold: char -> char, e: E.Cluster, oc: I.Cluster)
    requires Permitted(fold, e, oc)
    ensures Frozen(Updated(e, oc)) == Frozen(oc)
    ensures Updated(e, oc).tags == e.tags
    ensures C.MapOption(C.ViewWorker, Updated(e, oc).properties.workerProfiles) == e.properties.workerProfiles
    ensures C.PlainLists(Updated(e, oc))
  {
    WorkersFrozen(e.properties.workerProfiles, oc.properties.workerProfiles);
    IngressesFrozen(oc.properties.ingressProfiles);
    C.ViewOfStored(e, Cleared(oc));
    assert e.properties.(workerProfiles := C.View(oc).properties.workerProfiles) == C.View(oc).properties;
  }

  // ---- the protocol's view of an update ----

  function Name(state: D.ProvisioningState): string {
    match state
    case Unset => ""
    case Creating => "Creating"
    case Updating => "Updating"
    case Deleting => "Deleting"
    case Succeeded => "Succeeded"
    case Failed => "Failed"
  }

  predicate Represents(doc: D.Document, oc: I.Cluster) {
    && oc.properties.provisioningState == Name(doc.state)
    && oc.properties.failedProvisioningState == Name(doc.failedState)
    && oc.properties.clusterProfile.resourceGroupId == doc.resourceGroupId
  }

  /**
   The write PutOrPatch of the protocol is this handler: its gate is the same, and
   its condition on the resource group is one that every accepted request meets.
   */
  lemma RequestIsPutOrPatch(fold: char -> char, e: E.Cluster, oc: I.Cluster, doc: D.Document, op: D.OperationId, content: int)
    requires Represents(doc, oc)
    ensures Gate(oc).Accept? <==> D.Edit(D.PutOrPatch(op, doc.resourceGroupId, content), doc).Edited?
    ensures Permitted(fold, e, oc) ==>
      var r := D.Edit(D.PutOrPatch(op, e.properties.clusterProfile.resourceGroupId, content), doc);
      r.Edited? && Represents(r.doc, Updated(e, oc))
  {
    hide C.MapOption, SameWorkers;
    if Permitted(fold, e, oc) {
      assert e.properties.(workerProfiles := C.View(oc).properties.workerProfiles) == C.View(oc).properties;
    }
  }

  // ---- any sequence of updates ----

  /** A request, or the end of its processing, which sets the states. */
  datatype Step = Request(e: E.Cluster) | Finish(state: string, failedState: string)

  ghost predicate MayStep(fold: char -> char, oc: I.Cluster, step: Step) {
    step.Request? ==> Permitted(fold, step.e, oc)
  }

  function Next(oc: I.Cluster, step: Step): I.Cluster {
    match step
    case Request(e) => Updated(e, oc)
    case Finish(state, failed) =>
      oc.(properties := oc.properties.(provisioningState := state, failedProvisioningState := failed))
  }

  ghost predicate IsHistory(fold: char -> char, ocs: seq<I.Cluster>, steps: seq<Step>) {
    && |ocs| == |steps| + 1
    && forall i :: 0 <= i < |steps| ==> MayStep(fold, ocs[i], steps[i]) && ocs[i + 1] == Next(ocs[i], steps[i])
  }

  lemma FinishKeepsFrozen(oc: I.Cluster, state: string, failed: string)
    ensures var c := Next(oc, Finish(state, failed)); Frozen(c) == Frozen(oc) && (C.PlainLists(oc) ==> C.PlainLists(c))
  {}

  /** Whatever is requested and however often, everything else stays as it was created. */
  lemma {:induction false} UpdatesKeepFrozen(fold: char -> char, ocs: seq<I.Cluster>, steps: seq<Step>, i: nat, j: nat)
    requires IsHistory(fold, ocs, steps) && i <= j < |ocs|
    ensures Frozen(ocs[j]) == Frozen(ocs[i])
    ensures C.PlainLists(ocs[i]) ==> C.PlainLists(ocs[j])
  {
    hide Permitted, Frozen, Updated, C.PlainLists, C.View;
    if i < j {
      UpdatesKeepFrozen(fold, ocs, steps, i, j - 1);
      assert MayStep(fold, ocs[j - 1], steps[j - 1]) && ocs[j - 1 + 1] == Next(ocs[j - 1], steps[j - 1]);
      if steps[j - 1].Request? {
        UpdateKeepsFrozen(fold, steps[j - 1].e, ocs[j - 1]);
      } else {
        FinishKeepsFrozen(ocs[j - 1], steps[j - 1].state, steps[j - 1].failedState);
      }
    }
  }
}
