/**
 DNS record ownership.  The managers of any number of clusters create, update and
 delete the "api." record set of a managed name; each operation is a Get followed
 by one conditional request to the DNS service.
 */
module Dns {
  import opened Wrappers

  type ClusterId = nat

  /** A record set: the resourceId of its metadata, if any, its address and its ETag. */
  datatype Record = Record(owner: Option<ClusterId>, ip: string, etag: nat)

  // ---- managed names ----

  predicate HasSuffix(s: string, suffix: string) {
    |suffix| <= |s| && s[|s| - |suffix|..] == suffix
  }

  function TrimSuffix(s: string, suffix: string): string {
    if HasSuffix(s, suffix) then s[..|s| - |suffix|] else s
  }

  /** The managed name of a domain, "" when the service does not manage it. */
  function ManagedDomain(domain: string, base: string): string {
    var name := TrimSuffix(domain, "." + base);
    if '.' in name then "" else name
  }

  /** A name is managed for exactly two spellings of the domain. */
  lemma ManagedDomainSpellings(domain: string, base: string, name: string)
    requires name != ""
    ensures ManagedDomain(domain, base) == name <==> '.' !in name && (domain == name || domain == name + "." + base)
  {
    var suffix := "." + base;
    assert suffix[0] == '.';
    assert HasSuffix(domain, suffix) ==> domain == domain[..|domain| - |suffix|] + suffix;
    assert name + "." + base == name + suffix;
    assert (name + suffix)[|name|..] == suffix && (name + suffix)[..|name|] == name;
    if HasSuffix(domain, suffix) && domain == name {
      assert name[|name| - |suffix|] == suffix[0];
    }
  }

  // ---- the protocol ----

  datatype Operation = Create | Update(ip: string) | Delete

  /** A request under way for cluster `owner`, with the ETag that the Get returned. */
  datatype Request = Request(op: Operation, owner: ClusterId, name: string, etag: nat)

  datatype State = State(records: map<string, Record>, nextETag: nat, requests: map<nat, Request>)

  datatype Event =
    | Look(r: nat, op: Operation, owner: ClusterId, name: string)   // the Get, when it leads to a request
    | Send(r: nat)                                                  // the service accepts the request
    | Lose(r: nat)                                                  // it does not, or the process dies

  /** Whether the record that was read lets the operation go on. */
  predicate GoesOn(op: Operation, owner: ClusterId, found: Option<Record>) {
    if op.Create? then found.None? else found.Some? && found.value.owner == Some(owner)
  }

  function Find(s: State, name: string): Option<Record> {
    if name in s.records then Some(s.records[name]) else None
  }

  /** Create sends If-None-Match "*", Update and Delete send If-Match. */
  predicate Accepts(s: State, q: Request) {
    if q.op.Create? then q.name !in s.records
    else q.name in s.records && s.records[q.name].etag == q.etag
  }

  predicate Enabled(s: State, e: Event) {
    match e
    case Look(r, op, owner, name) => r !in s.requests && GoesOn(op, owner, Find(s, name))
    case Send(r) => r in s.requests && Accepts(s, s.requests[r])
    case Lose(r) => r in s.requests
  }

  function Sent(s: State, q: Request): map<string, Record> {
    match q.op
    case Create => s.records[q.name := Record(Some(q.owner), "", s.nextETag)]
    case Update(ip) => s.records[q.name := Record(Some(q.owner), ip, s.nextETag)]
    case Delete => s.records - {q.name}
  }

  function After(s: State, e: Event): State
    requires Enabled(s, e)
  {
    match e
    case Look(r, op, owner, name) =>
      var etag := if name in s.records then s.records[name].etag else 0;
      s.(requests := s.requests[r := Request(op, owner, name, etag)])
    case Send(r) =>
      State(Sent(s, s.requests[r]), s.nextETag + 1, s.requests - {r})
    case Lose(r) => s.(requests := s.requests - {r})
  }

  ghost predicate IsRun(ss: seq<State>, es: seq<Event>) {
    && |ss| == |es| + 1
    && ss[0].requests == map[]
    && (forall name :: name in ss[0].records ==> ss[0].records[name].etag < ss[0].nextETag)
    && forall i :: 0 <= i < |es| ==> Enabled(ss[i], es[i]) && ss[i + 1] == After(ss[i], es[i])
  }

  /** An ETag that a request carries names a version that its own cluster owned. */
  ghost predicate Inv(s: State) {
    && (forall name :: name in s.records ==> s.records[name].etag < s.nextETag)
    && (forall r :: r in s.requests && !s.requests[r].op.Create? ==>
          var q := s.requests[r];
          && q.etag < s.nextETag
          && (q.name in s.records && s.records[q.name].etag == q.etag ==> s.records[q.name].owner == Some(q.owner)))
  }

  lemma {:induction false} RunKeepsInv(ss: seq<State>, es: seq<Event>, n: nat)
    requires IsRun(ss, es) && n < |ss|
    ensures Inv(ss[n])
  {
    if n > 0 {
      RunKeepsInv(ss, es, n - 1);
    }
  }

  /** The service accepts the deletion of `name` for `owner`. */
  predicate Deletes(s: State, e: Event, name: string, owner: ClusterId) {
    && e.Send? && e.r in s.requests
    && s.requests[e.r].op.Delete? && s.requests[e.r].name == name && s.requests[e.r].owner == owner
  }

  predicate OwnedBy(s: State, name: string, owner: ClusterId) {
    name in s.records && s.records[name].owner == Some(owner)
  }

  /** One event keeps the owner or is the owner's own deletion. */
  lemma OwnerStep(s: State, e: Event, name: string, x: ClusterId)
    requires Inv(s) && Enabled(s, e) && OwnedBy(s, name, x) && !OwnedBy(After(s, e), name, x)
    ensures Deletes(s, e, name, x) && name !in After(s, e).records
  {}

  /** Event `k` is the deletion by X that ends its ownership, unbroken since state `i`. */
  ghost predicate EndsOwnership(ss: seq<State>, es: seq<Event>, i: nat, k: nat, name: string, x: ClusterId)
    requires |ss| == |es| + 1
  {
    && i <= k < |es|
    && Deletes(ss[k], es[k], name, x)
    && name !in ss[k + 1].records
    && forall l :: i <= l <= k ==> OwnedBy(ss[l], name, x)
  }

  /**
   A name owned by X at one moment and not by X at a later one was deleted by X in
   between; until then nobody else could take or change it.
   */
  lemma {:induction false} OwnershipPassesThroughDeletion(ss: seq<State>, es: seq<Event>, i: nat, j: nat, name: string, x: ClusterId)
    requires IsRun(ss, es) && i <= j < |ss|
    requires OwnedBy(ss[i], name, x) && !OwnedBy(ss[j], name, x)
    ensures exists k: nat :: k < j && EndsOwnership(ss, es, i, k, name, x)
    decreases j - i
  {
    RunKeepsInv(ss, es, i);
    if !OwnedBy(ss[i + 1], name, x) {
      OwnerStep(ss[i], es[i], name, x);
      assert EndsOwnership(ss, es, i, i, name, x);
    } else {
      OwnershipPassesThroughDeletion(ss, es, i + 1, j, name, x);
      var k: nat :| k < j && EndsOwnership(ss, es, i + 1, k, name, x);
      assert EndsOwnership(ss, es, i, k, name, x);
    }
  }

  // ---- what a record holds ----

  /** The service accepts request `op` of `owner` on `name`. */
  predicate Accepted(s: State, e: Event, name: string, owner: ClusterId, op: Operation) {
    && e.Send? && e.r in s.requests
    && s.requests[e.r].name == name && s.requests[e.r].owner == owner && s.requests[e.r].op == op
  }

  predicate Touches(s: State, e: Event, name: string) {
    e.Send? && e.r in s.requests && s.requests[e.r].name == name
  }

  /** The address that an accepted request leaves: none after a Create, the one it was given after an Update. */
  function AddressOf(op: Operation): string {
    if op.Update? then op.ip else ""
  }

  /** What an accepted request makes of its name; no other name changes. */
  lemma AcceptedEffect(s: State, e: Event, name: string, owner: ClusterId, op: Operation)
    requires Enabled(s, e) && Accepted(s, e, name, owner, op)
    ensures var t := After(s, e);
      && (op.Delete? ==> name !in t.records)
      && (!op.Delete? ==> name in t.records && t.records[name].owner == Some(owner) && t.records[name].ip == AddressOf(op))
      && (op.Create? ==> name !in s.records)
      && (!op.Create? ==> name in s.records)
      && forall other :: other != name ==> Find(t, other) == Find(s, other)
  {}

  lemma UntouchedStays(s: State, e: Event, name: string)
    requires Enabled(s, e) && !Touches(s, e, name)
    ensures Find(After(s, e), name) == Find(s, name)
  {}

  /** Event `k` is the last before state `n` that was accepted on `name`. */
  ghost predicate LastAccepted(ss: seq<State>, es: seq<Event>, k: nat, n: nat, name: string, owner: ClusterId, op: Operation)
    requires |ss| == |es| + 1 && n < |ss|
  {
    && k < n && Accepted(ss[k], es[k], name, owner, op)
    && forall l :: k < l < n ==> !Touches(ss[l], es[l], name)
  }

  /** The record of `name` in state `n` is what the request accepted in event `k`, a Create or an Update, has left. */
  ghost predicate LeftBy(ss: seq<State>, es: seq<Event>, k: nat, n: nat, name: string)
    requires |ss| == |es| + 1 && n < |ss|
  {
    && k < n && Touches(ss[k], es[k], name) && name in ss[n].records
    && var q := ss[k].requests[es[k].r];
      && LastAccepted(ss, es, k, n, name, q.owner, q.op) && !q.op.Delete?
      && ss[n].records[name].owner == Some(q.owner) && ss[n].records[name].ip == AddressOf(q.op)
  }

  /**
   A record is as the run found it, or its owner and its address are those of the
   last request that was accepted on its name, which was a Create or an Update.
   */
  lemma {:induction false} RecordIsLastAccepted(ss: seq<State>, es: seq<Event>, n: nat, name: string)
    requires IsRun(ss, es) && n < |ss| && name in ss[n].records
    ensures
      || (Find(ss[n], name) == Find(ss[0], name) && forall l :: 0 <= l < n ==> !Touches(ss[l], es[l], name))
      || exists k: nat :: LeftBy(ss, es, k, n, name)
  {
    if n > 0 {
      var s, e := ss[n - 1], es[n - 1];
      if Touches(s, e, name) {
        var q := s.requests[e.r];
        AcceptedEffect(s, e, name, q.owner, q.op);
        assert LastAccepted(ss, es, n - 1, n, name, q.owner, q.op);
        assert LeftBy(ss, es, n - 1, n, name);
      } else {
        UntouchedStays(s, e, name);
        RecordIsLastAccepted(ss, es, n - 1, name);
        var last := n - 1;
        if k: nat :| LeftBy(ss, es, k, last, name) {
          var q := ss[k].requests[es[k].r];
          assert LastAccepted(ss, es, k, n, name, q.owner, q.op);
          assert LeftBy(ss, es, k, n, name);
        }
      }
    }
  }

  /** What each operation may do: anyone creates an absent name, its owner updates and deletes it, and nothing in between refuses it. */
  lemma OperationsGoThrough(s: State, r: nat, op: Operation, owner: ClusterId, name: string)
    requires r !in s.requests
    ensures Enabled(s, Look(r, op, owner, name)) <==> if op.Create? then name !in s.records else OwnedBy(s, name, owner)
    ensures Enabled(s, Look(r, op, owner, name)) ==> Enabled(After(s, Look(r, op, owner, name)), Send(r))
  {}
}
