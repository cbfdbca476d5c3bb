/**
 The memoising resolver of the installer's asset graph.  Assets are identified by
 their type; `Generate` is a call into the installer library that may fail and may
 depend on anything, so its outcome is a function of the parents it sees and of a
 seed that is never used twice.
 */
module AssetGraph {
  import opened Wrappers

  type Type = nat
  type Asset = int
  type Entries = map<Type, Asset>

  /** A call of Generate: the assets it could see, and its outcome. */
  datatype Call = Call(t: Type, parents: Entries, seed: nat, result: Option<Asset>)

  datatype Library = Library(
    dependencies: map<Type, seq<Type>>,
    generate: (Type, Entries, nat) -> Option<Asset>,
    rank: map<Type, nat>)

  function Dependencies(lib: Library, t: Type): seq<Type> {
    if t in lib.dependencies then lib.dependencies[t] else []
  }

  /** A depth of each type in the graph, which only the proof of termination needs. */
  function Rank(lib: Library, t: Type): nat {
    if t in lib.rank then lib.rank[t] else 0
  }

  /** The dependency relation has no cycles: every dependency has a smaller rank. */
  ghost predicate Acyclic(lib: Library) {
    forall t, d :: d in Dependencies(lib, t) ==> Rank(lib, d) < Rank(lib, t)
  }

  /** Type `x` is needed for `t`: there is a path of dependencies to it through types that are missing. */
  ghost predicate Needs(lib: Library, entries: Entries, t: Type, x: Type)
    requires Acyclic(lib)
    decreases Rank(lib, t)
  {
    t !in entries && (x == t || exists d :: d in Dependencies(lib, t) && Needs(lib, entries, d, x))
  }

  lemma {:induction false} NeedsLess(lib: Library, entries: Entries, more: Entries, t: Type, x: Type)
    requires Acyclic(lib) && entries.Keys <= more.Keys && Needs(lib, more, t, x)
    ensures Needs(lib, entries, t, x)
    decreases Rank(lib, t)
  {
    if x != t {
      var d :| d in Dependencies(lib, t) && Needs(lib, more, d, x);
      NeedsLess(lib, entries, more, d, x);
    }
  }

  lemma {:induction false} NeededHasLowerRank(lib: Library, entries: Entries, t: Type, x: Type)
    requires Acyclic(lib) && Needs(lib, entries, t, x)
    ensures Rank(lib, x) <= Rank(lib, t)
    decreases Rank(lib, t)
  {
    if x != t {
      var d :| d in Dependencies(lib, t) && Needs(lib, entries, d, x);
      NeededHasLowerRank(lib, entries, d, x);
    }
  }

  ghost predicate AllNeeded(lib: Library, entries: Entries, t: Type, calls: seq<Call>)
    requires Acyclic(lib)
  {
    forall c :: c in calls ==> Needs(lib, entries, t, c.t)
  }

  ghost predicate Below(lib: Library, entries: Entries, t: Type, calls: seq<Call>)
    requires Acyclic(lib)
  {
    forall c :: c in calls ==> Needs(lib, entries, t, c.t) && Rank(lib, c.t) < Rank(lib, t)
  }

  lemma BelowAppend(lib: Library, entries: Entries, now: Entries, t: Type, d: Type, calls: seq<Call>, more: seq<Call>)
    requires Acyclic(lib) && Below(lib, entries, t, calls) && d in Dependencies(lib, t) && AllNeeded(lib, now, d, more)
    requires t !in entries && entries.Keys <= now.Keys
    ensures Below(lib, entries, t, calls + more)
  {
    forall c | c in more ensures Needs(lib, entries, t, c.t) && Rank(lib, c.t) < Rank(lib, t) {
      NeedsLess(lib, entries, now, d, c.t);
      NeededHasLowerRank(lib, entries, d, c.t);
    }
  }

  lemma BelowIsNeeded(lib: Library, entries: Entries, t: Type, calls: seq<Call>)
    requires Acyclic(lib) && Below(lib, entries, t, calls)
    ensures AllNeeded(lib, entries, t, calls) && forall c :: c in calls ==> c.t != t
  {}

  // ---- what a resolver may do ----

  /** The entries after the successful ones of `calls` have been stored. */
  function Store(entries: Entries, calls: seq<Call>): Entries {
    if calls == [] then entries
    else
      var before, c := Store(entries, calls[..|calls| - 1]), calls[|calls| - 1];
      if c.result.Some? then before[c.t := c.result.value] else before
  }

  predicate AllSucceed(calls: seq<Call>) {
    forall c :: c in calls ==> c.result.Some?
  }

  /** Call `k` generates something missing whose dependencies are all there; only the last call may fail. */
  ghost predicate Proper(lib: Library, entries: Entries, calls: seq<Call>, k: nat)
    requires k < |calls|
  {
    var c, before := calls[k], Store(entries, calls[..k]);
    && c.parents == before
    && c.t !in before
    && (forall d :: d in Dependencies(lib, c.t) ==> d in before)
    && c.result == lib.generate(c.t, c.parents, c.seed)
    && (k < |calls| - 1 ==> c.result.Some?)
  }

  ghost predicate Trace(lib: Library, entries: Entries, calls: seq<Call>) {
    forall k :: 0 <= k < |calls| ==> Proper(lib, entries, calls, k)
  }

  lemma {:induction false} StoreAppend(entries: Entries, a: seq<Call>, b: seq<Call>)
    ensures Store(entries, a + b) == Store(Store(entries, a), b)
  {
    if b == [] {
      assert a + b == a;
    } else {
      StoreAppend(entries, a, b[..|b| - 1]);
      assert (a + b)[..|a + b| - 1] == a + b[..|b| - 1];
    }
  }

  lemma TraceAppend(lib: Library, entries: Entries, a: seq<Call>, b: seq<Call>)
    requires Trace(lib, entries, a) && AllSucceed(a) && Trace(lib, Store(entries, a), b)
    ensures Trace(lib, entries, a + b)
    ensures Store(entries, a + b) == Store(Store(entries, a), b)
    ensures AllSucceed(a + b) <==> AllSucceed(b)
  {
    StoreAppend(entries, a, b);
    forall k | 0 <= k < |a + b| ensures Proper(lib, entries, a + b, k) {
      if k < |a| {
        assert (a + b)[..k] == a[..k] && Proper(lib, entries, a, k);
      } else {
        assert (a + b)[..k] == a + b[..k - |a|];
        StoreAppend(entries, a, b[..k - |a|]);
        assert Proper(lib, Store(entries, a), b, k - |a|);
      }
    }
    forall c | c in b ensures c in a + b {}
  }

  // ---- what follows for every run of the resolver ----

  /** Entries are never removed or replaced. */
  lemma {:induction false} EntriesStay(lib: Library, entries: Entries, calls: seq<Call>, k: nat)
    requires Trace(lib, entries, calls) && k <= |calls|
    ensures Store(entries, calls[..k]).Keys <= Store(entries, calls).Keys
    ensures forall t :: t in Store(entries, calls[..k]) ==> Store(entries, calls)[t] == Store(entries, calls[..k])[t]
  {
    if k == |calls| {
      assert calls[..k] == calls;
    } else {
      var n := |calls| - 1;
      TracePrefix(lib, entries, calls, n);
      EntriesStay(lib, entries, calls[..n], k);
      assert calls[..n][..k] == calls[..k];
      assert Proper(lib, entries, calls, n);
    }
  }

  lemma KeysStay(lib: Library, entries: Entries, a: seq<Call>, b: seq<Call>)
    requires Trace(lib, entries, a + b)
    ensures Store(entries, a).Keys <= Store(entries, a + b).Keys
  {
    EntriesStay(lib, entries, a + b, |a|);
    assert (a + b)[..|a|] == a;
  }

  lemma SeedsStay(lib: Library, entries: Entries, calls: seq<Call>)
    requires Trace(lib, entries, calls)
    ensures entries.Keys <= Store(entries, calls).Keys
  {
    EntriesStay(lib, entries, calls, 0);
    assert calls[..0] == [];
  }

  lemma TracePrefix(lib: Library, entries: Entries, calls: seq<Call>, n: nat)
    requires Trace(lib, entries, calls) && n <= |calls|
    ensures Trace(lib, entries, calls[..n])
  {
    forall k | 0 <= k < n ensures Proper(lib, entries, calls[..n], k) {
      assert calls[..n][..k] == calls[..k] && Proper(lib, entries, calls, k);
    }
  }

  lemma Start(lib: Library, entries: Entries, t: Type)
    requires Acyclic(lib)
    ensures Trace(lib, entries, []) && Store(entries, []) == entries && AllSucceed([]) && Below(lib, entries, t, [])
    ensures forall k :: 0 <= k < |Dependencies(lib, t)| ==> Rank(lib, Dependencies(lib, t)[k]) < Rank(lib, t)
  {}

  /** No type is generated twice, and none that was seeded, whether or not the run succeeds. */
  lemma GeneratedAtMostOnce(lib: Library, entries: Entries, calls: seq<Call>, j: nat)
    requires Trace(lib, entries, calls) && j < |calls|
    ensures calls[j].t !in entries
    ensures forall i :: 0 <= i < j ==> calls[i].t != calls[j].t
  {
    assert Proper(lib, entries, calls, j);
    TracePrefix(lib, entries, calls, j);
    EntriesStay(lib, entries, calls[..j], 0);
    assert calls[..j][..0] == [];
    forall i | 0 <= i < j ensures calls[i].t != calls[j].t {
      assert Proper(lib, entries, calls, i);
      EntriesStay(lib, entries, calls[..j], i + 1);
      assert calls[..j][..i + 1] == calls[..i + 1] && calls[..i + 1][..i] == calls[..i];
    }
  }

  /** What is there is a seed, or was stored by the one call that generated it with its dependencies present. */
  lemma {:induction false} EntriesExplained(lib: Library, entries: Entries, calls: seq<Call>, t: Type)
    requires Trace(lib, entries, calls) && t in Store(entries, calls)
    ensures
      || (t in entries && Store(entries, calls)[t] == entries[t])
      || exists k :: 0 <= k < |calls| && calls[k].t == t && calls[k].result == Some(Store(entries, calls)[t])
  {
    if calls != [] {
      var n := |calls| - 1;
      if calls[n].t == t && calls[n].result.Some? {
        assert calls[n].result == Some(Store(entries, calls)[t]);
      } else {
        TracePrefix(lib, entries, calls, n);
        EntriesExplained(lib, entries, calls[..n], t);
      }
    }
  }

  /** Even after an error, whatever was newly stored has all its dependencies in the graph. */
  lemma {:induction false} NewEntriesAreClosed(lib: Library, entries: Entries, calls: seq<Call>, t: Type, d: Type)
    requires Trace(lib, entries, calls) && t in Store(entries, calls) && t !in entries && d in Dependencies(lib, t)
    ensures d in Store(entries, calls)
  {
    EntriesExplained(lib, entries, calls, t);
    var k :| 0 <= k < |calls| && calls[k].t == t;
    assert Proper(lib, entries, calls, k);
    EntriesStay(lib, entries, calls, k);
  }

  lemma NotYetStored(lib: Library, entries: Entries, calls: seq<Call>, t: Type)
    requires Trace(lib, entries, calls) && t !in entries && forall c :: c in calls ==> c.t != t
    ensures t !in Store(entries, calls)
  {
    if t in Store(entries, calls) {
      EntriesExplained(lib, entries, calls, t);
    }
  }

  lemma OneMoreCall(lib: Library, entries: Entries, calls: seq<Call>, c: Call)
    requires Trace(lib, entries, calls) && AllSucceed(calls)
    requires c.parents == Store(entries, calls) && c.t !in c.parents
    requires forall d :: d in Dependencies(lib, c.t) ==> d in c.parents
    requires c.result == lib.generate(c.t, c.parents, c.seed)
    ensures Trace(lib, entries, calls + [c])
    ensures Store(entries, calls + [c]) == if c.result.Some? then c.parents[c.t := c.result.value] else c.parents
  {
    assert [c][..0] == [];
    assert Store(c.parents, [c]) == if c.result.Some? then c.parents[c.t := c.result.value] else c.parents;
    assert Proper(lib, c.parents, [c], 0);
    TraceAppend(lib, entries, calls, [c]);
  }

  // ---- the code ----

  class Graph {
    const lib: Library
    var entries: Entries
    var seed: nat

    constructor (lib: Library, entries: Entries)
      ensures this.lib == lib && this.entries == entries
    {
      this.lib, this.entries, this.seed := lib, entries, 0;
    }

    /** resolve: the asset of type `t`, generated together with what it needs unless it is there. */
    method Resolve(t: Type) returns (r: Option<Asset>, ghost calls: seq<Call>)
      requires Acyclic(lib)
      modifies this`entries, this`seed
      ensures Trace(lib, old(entries), calls) && entries == Store(old(entries), calls)
      ensures r.Some? <==> AllSucceed(calls)
      ensures r.Some? ==> t in entries && r.value == entries[t]
      ensures AllNeeded(lib, old(entries), t, calls)
      ensures t in old(entries) ==> calls == []
      decreases Rank(lib, t), 1
    {
      calls := [];
      if t !in entries {
        var ok;
        ok, calls := ResolveAll(t);
        BelowIsNeeded(lib, old(entries), t, calls);
        if !ok {
          r := None;
          return;
        }
        NotYetStored(lib, old(entries), calls, t);
        var made := lib.generate(t, entries, seed);
        ghost var call := Call(t, entries, seed, made);
        OneMoreCall(lib, old(entries), calls, call);
        calls := calls + [call];
        assert call in calls;
        seed := seed + 1;
        if made.None? {
          r := None;
          return;
        }
        entries := entries[t := made.value];
      }
      r := Some(entries[t]);
    }

    /** The loop over the dependencies of `t`. */
    method ResolveAll(t: Type) returns (ok: bool, ghost calls: seq<Call>)
      requires Acyclic(lib) && t !in entries
      modifies this`entries, this`seed
      ensures Trace(lib, old(entries), calls) && entries == Store(old(entries), calls)
      ensures ok <==> AllSucceed(calls)
      ensures ok ==> forall k :: 0 <= k < |Dependencies(lib, t)| ==> Dependencies(lib, t)[k] in entries
      ensures Below(lib, old(entries), t, calls)
      decreases Rank(lib, t), 0
    {
      hide *;
      ok, calls := true, [];
      var deps := Dependencies(lib, t);
      Start(lib, entries, t);
      var i := 0;
      while i < |deps| && ok
        invariant 0 <= i <= |deps| && Below(lib, old(entries), t, calls)
        invariant Trace(lib, old(entries), calls) && entries == Store(old(entries), calls)
        invariant ok <==> AllSucceed(calls)
        invariant ok ==> forall k :: 0 <= k < i ==> deps[k] in entries
      {
        ghost var before, now := calls, entries;
        var r;
        ghost var more;
        r, more := Resolve(deps[i]);
        TraceAppend(lib, old(entries), before, more);
        SeedsStay(lib, old(entries), before);
        BelowAppend(lib, old(entries), now, t, deps[i], before, more);
        KeysStay(lib, old(entries), before, more);
        calls := before + more;
        ok, i := r.Some?, i + 1;
      }
    }
  }
}
