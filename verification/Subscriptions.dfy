/**
 The backend's pass over the clusters of a deleted subscription: every cluster is
 patched to Deleting, and the pass is done if none of them was busy.
 */
module Subscriptions {
  import opened Wrappers
  import opened Documents
  import opened Database

  function EditCluster(doc: Document): EditResult {
    EditSubscriptionDelete(doc)
  }

  /** None of the documents that were read was busy. */
  ghost predicate Quiet(rs: seq<Reading>) {
    forall k :: 0 <= k < |rs| ==> !Busy(rs[k].v.doc)
  }

  lemma QuietAppend(a: seq<Reading>, b: seq<Reading>)
    ensures Quiet(a + b) <==> Quiet(a) && Quiet(b)
  {
    if Quiet(a + b) {
      forall k | 0 <= k < |a| ensures !Busy(a[k].v.doc) {
        assert (a + b)[k] == a[k];
      }
      forall k | 0 <= k < |b| ensures !Busy(b[k].v.doc) {
        assert (a + b)[|a| + k] == b[k];
      }
    }
  }

  lemma QuietShifted(rs: seq<Reading>, n: nat)
    ensures Quiet(Shifted(rs, n)) <==> Quiet(rs)
  {
    assert forall k :: 0 <= k < |rs| ==> Shifted(rs, n)[k].v == rs[k].v;
  }

  // ---- what the pass has written ----

  /** We wrote the cluster with this key; conditionally, as the edit of what we replaced; if `quiet`, as Deleting. */
  predicate WrittenBy(c: Change, key: string, conditional: bool, quiet: bool) {
    && c.mine && c.after.Some? && c.before.Some?
    && c.after.value.doc.identity.key == key
    && (conditional ==> EditCluster(c.before.value.doc) == Edited(c.after.value.doc))
    && (quiet ==> c.after.value.doc.state.Deleting?)
  }

  ghost predicate Written(cs: seq<Change>, key: string, conditional: bool, quiet: bool) {
    exists k :: 0 <= k < |cs| && WrittenBy(cs[k], key, conditional, quiet)
  }

  ghost predicate AllWritten(cs: seq<Change>, keys: seq<string>, conditional: bool, quiet: bool) {
    forall i :: 0 <= i < |keys| ==> Written(cs, keys[i], conditional, quiet)
  }

  lemma WrittenLater(cs: seq<Change>, more: seq<Change>, key: string, conditional: bool, quiet: bool, still: bool)
    requires Written(cs, key, conditional, quiet) || Written(more, key, conditional, quiet)
    requires still ==> quiet
    ensures Written(cs + more, key, conditional, still)
  {
    if Written(cs, key, conditional, quiet) {
      var k :| 0 <= k < |cs| && WrittenBy(cs[k], key, conditional, quiet);
      assert (cs + more)[k] == cs[k];
    } else {
      var k :| 0 <= k < |more| && WrittenBy(more[k], key, conditional, quiet);
      assert (cs + more)[|cs| + k] == more[k];
    }
  }

  lemma AllWrittenJoin(cs: seq<Change>, more: seq<Change>, keys: seq<string>, others: seq<string>, conditional: bool,
                       quiet: bool, now: bool)
    requires AllWritten(cs, keys, conditional, quiet) && AllWritten(more, others, conditional, now)
    ensures AllWritten(cs + more, keys + others, conditional, quiet && now)
  {
    forall i | 0 <= i < |keys + others| ensures Written(cs + more, (keys + others)[i], conditional, quiet && now) {
      if i < |keys| {
        WrittenLater(cs, more, keys[i], conditional, quiet, quiet && now);
      } else {
        WrittenLater(cs, more, others[i - |keys|], conditional, now, quiet && now);
      }
    }
  }

  // ---- what the pass has read ----

  /** Each reading found a cluster with one of the keys as it was stored then. */
  ghost predicate Sightings(docs: Docs, cs: seq<Change>, keys: seq<string>, rs: seq<Reading>) {
    forall k :: 0 <= k < |rs| ==> rs[k].v.doc.identity.key in keys && IsReading(docs, cs, rs[k].v.doc.identity.key, rs[k])
  }

  lemma SightingsJoin(docs: Docs, cs: seq<Change>, more: seq<Change>, keys: seq<string>, others: seq<string>,
                      rs: seq<Reading>, once: seq<Reading>)
    requires Sightings(docs, cs, keys, rs) && Sightings(Replay(docs, cs), more, others, once)
    ensures Sightings(docs, cs + more, keys + others, rs + Shifted(once, |cs|))
  {
    hide IsReading;
    var all := rs + Shifted(once, |cs|);
    forall k | 0 <= k < |all|
      ensures all[k].v.doc.identity.key in keys + others && IsReading(docs, cs + more, all[k].v.doc.identity.key, all[k])
    {
      if k < |rs| {
        ReadingLater(docs, cs, more, rs[k].v.doc.identity.key, rs[k]);
      } else {
        ReadingShifted(docs, cs, more, once[k - |rs|].v.doc.identity.key, once[k - |rs|]);
      }
    }
  }

  // ---- errors ----

  datatype Failure = IteratorFailed | ClusterFailed(key: string, status: Status)

  /** The patch of the cluster with this key ended with this error, and for its reason. */
  ghost predicate PatchFailed(docs: Docs, cs: seq<Change>, key: string, status: Status) {
    exists rs :: Readings(docs, cs, key, rs) && Explained(EditCluster, docs, cs, key, rs, MAX_ATTEMPTS, Err(status))
  }

  lemma PatchFailedLate(docs: Docs, cs: seq<Change>, more: seq<Change>, key: string, status: Status)
    requires PatchFailed(Replay(docs, cs), more, key, status)
    ensures PatchFailed(docs, cs + more, key, status)
  {
    hide Explained, Readings;
    var rs :| Readings(Replay(docs, cs), more, key, rs) && Explained(EditCluster, Replay(docs, cs), more, key, rs, MAX_ATTEMPTS, Err(status));
    ExplainedShifted(EditCluster, docs, cs, more, key, rs, MAX_ATTEMPTS, Err(status));
    EmptyReadings(docs, cs, key);
    ReadingsJoin(docs, cs, more, key, [], rs);
    assert [] + Shifted(rs, |cs|) == Shifted(rs, |cs|);
  }

  lemma EmptyReadings(docs: Docs, cs: seq<Change>, key: string)
    ensures Readings(docs, cs, key, [])
  {}

  // ---- the code ----

  /**
   What part of a pass has done: it has read `rs`, it has written all of `keys`
   unless it failed, and `done` says that no reading was busy.
   */
  ghost predicate PassedOver(docs: Docs, cs: seq<Change>, keys: seq<string>, rs: seq<Reading>, conditional: bool,
                             done: bool, err: Option<Failure>) {
    && Sightings(docs, cs, keys, rs)
    && (done <==> Quiet(rs))
    && (err.None? ==> AllWritten(cs, keys, conditional, done))
    && (err.Some? && err.value.ClusterFailed? ==> err.value.key in keys && PatchFailed(docs, cs, err.value.key, err.value.status))
  }

  lemma PassedOverJoin(docs: Docs, cs: seq<Change>, more: seq<Change>, keys: seq<string>, others: seq<string>,
                       rs: seq<Reading>, once: seq<Reading>, conditional: bool, done: bool, quiet: bool, err: Option<Failure>)
    requires PassedOver(docs, cs, keys, rs, conditional, done, None)
    requires PassedOver(Replay(docs, cs), more, others, once, conditional, quiet, err)
    ensures PassedOver(docs, cs + more, keys + others, rs + Shifted(once, |cs|), conditional, done && quiet, err)
  {
    hide Sightings, Quiet, AllWritten, PatchFailed;
    SightingsJoin(docs, cs, more, keys, others, rs, once);
    QuietShifted(once, |cs|);
    QuietAppend(rs, Shifted(once, |cs|));
    if err.None? {
      AllWrittenJoin(cs, more, keys, others, conditional, done, quiet);
    } else if err.value.ClusterFailed? {
      PatchFailedLate(docs, cs, more, err.value.key, err.value.status);
    }
  }

  lemma NothingPassed(docs: Docs, conditional: bool)
    ensures PassedOver(docs, [], [], [], conditional, true, None)
  {}

  /**
   The patch of one cluster.  The closure may run several times; any run that sees
   a busy cluster clears `done`, even if a later run sees another state.
   */
  method PatchCluster(c: Clusters, key: string)
    returns (done: bool, err: Option<Failure>, ghost rs: seq<Reading>, ghost cs: seq<Change>)
    requires c.Valid()
    modifies c`docs, c`nextETag, c`now, c`others, c`history
    ensures c.history == old(c.history) + cs && c.Since(old(c.Here()), cs)
    ensures PassedOver(old(c.docs), cs, [key], rs, c.nilSendsIfMatch, done, err)
    ensures err.Some? ==> AllForeign(cs) && err.value.ClusterFailed?
    ensures err.None? ==> rs != []
  {
    hide Between, AllForeign, AllLost, Replay;
    var r, docs;
    r, docs, rs, cs := c.Patch(key, EditCluster, NilOptions);
    err := if r.Err? then Some(ClusterFailed(key, r.status)) else None;
    done := true;
    for i := 0 to |docs|
      invariant done <==> forall k :: 0 <= k < i ==> !Busy(docs[k])
    {
      done := done && !Busy(docs[i]);
    }
    assert done <==> Quiet(rs);
    assert Sightings(old(c.docs), cs, [key], rs);
    if r.Ok? {
      WriteMarks(c.nilSendsIfMatch, cs, key, rs, r.value, c.now);
      assert [key][0] == key;
    }
  }

  lemma WriteMarks(conditional: bool, cs: seq<Change>, key: string, rs: seq<Reading>, v: Versioned, now: nat)
    requires rs != [] && rs[|rs| - 1].v.doc.identity.key == key
    requires OneWrite(EditCluster, NilOptions, conditional, cs, rs[|rs| - 1].id, rs[|rs| - 1].v, v, now)
    ensures Written(cs, key, conditional, Quiet(rs))
  {
    assert WrittenBy(cs[|cs| - 1], key, conditional, Quiet(rs));
  }

  /** The clusters of one page; stops at the first error.  `keys` are those it has tried. */
  method PatchPage(c: Clusters, page: seq<string>)
    returns (done: bool, err: Option<Failure>, ghost rs: seq<Reading>, ghost keys: seq<string>, ghost cs: seq<Change>)
    requires c.Valid()
    modifies c`docs, c`nextETag, c`now, c`others, c`history
    ensures c.history == old(c.history) + cs && c.Since(old(c.Here()), cs)
    ensures PassedOver(old(c.docs), cs, keys, rs, c.nilSendsIfMatch, done, err)
    ensures keys <= page && (err.None? ==> keys == page)
    ensures err.Some? ==> err.value.ClusterFailed?
  {
    hide Between, AllForeign, PassedOver;
    NothingYet(c.Here());
    NothingPassed(c.docs, c.nilSendsIfMatch);
    ghost var start := c.Here();
    done, err, rs, keys, cs := true, None, [], [], [];
    for i := 0 to |page|
      invariant err.None? && keys == page[..i]
      invariant c.history == old(c.history) + cs && c.Since(start, cs)
      invariant PassedOver(start.docs, cs, keys, rs, c.nilSendsIfMatch, done, None)
    {
      ghost var here := c.Here();
      var quiet;
      ghost var once, more;
      quiet, err, once, more := PatchCluster(c, page[i]);
      Then(start, cs, here, more, c.Here());
      BetweenReplays(start, cs, here);
      assert old(c.history) + cs + more == old(c.history) + (cs + more);
      PassedOverJoin(start.docs, cs, more, keys, [page[i]], rs, once, c.nilSendsIfMatch, done, quiet, err);
      assert page[..i + 1] == page[..i] + [page[i]];
      keys := keys + [page[i]];
      rs, cs, done := rs + Shifted(once, |cs|), cs + more, done && quiet;
      if err.Some? {
        return;
      }
    }
    assert page[..|page|] == page;
  }

  /** handleDelete over the pages that the iterator returns; `None` is an error of the iterator. */
  method HandleDelete(c: Clusters, pages: seq<Option<seq<string>>>)
    returns (done: bool, err: Option<Failure>, ghost rs: seq<Reading>, ghost cs: seq<Change>)
    requires c.Valid()
    modifies c`docs, c`nextETag, c`now, c`others, c`history
    ensures c.history == old(c.history) + cs && c.Since(old(c.Here()), cs)
    ensures err.Some? ==> !done
    ensures err.None? ==>
      && None !in pages
      && PassedOver(old(c.docs), cs, Listed(pages), rs, c.nilSendsIfMatch, done, None)
    ensures err == Some(IteratorFailed) ==> None in pages
    ensures err.Some? && err.value.ClusterFailed? ==>
      err.value.key in Listed(pages) && PatchFailed(old(c.docs), cs, err.value.key, err.value.status)
  {
    hide Between, AllForeign, PassedOver, Listed, PatchFailed;
    NothingYet(c.Here());
    NothingPassed(c.docs, c.nilSendsIfMatch);
    NothingListed(pages);
    ghost var start := c.Here();
    done, err, rs, cs := true, None, [], [];
    for p := 0 to |pages|
      invariant err.None? && forall q :: 0 <= q < p ==> pages[q].Some?
      invariant c.history == old(c.history) + cs && c.Since(start, cs)
      invariant PassedOver(start.docs, cs, Listed(pages[..p]), rs, c.nilSendsIfMatch, done, None)
    {
      if pages[p].None? {
        done, err := false, Some(IteratorFailed);
        return;
      }
      ghost var here := c.Here();
      var quiet;
      ghost var once, more, keys;
      quiet, err, once, keys, more := PatchPage(c, pages[p].value);
      Then(start, cs, here, more, c.Here());
      BetweenReplays(start, cs, here);
      assert old(c.history) + cs + more == old(c.history) + (cs + more);
      PassedOverJoin(start.docs, cs, more, Listed(pages[..p]), keys, rs, once, c.nilSendsIfMatch, done, quiet, err);
      ListedMore(pages, p, keys);
      rs, cs, done := rs + Shifted(once, |cs|), cs + more, done && quiet;
      if err.Some? {
        WhyFailed(start.docs, cs, Listed(pages[..p]) + keys, rs, c.nilSendsIfMatch, done, err);
        done := false;
        return;
      }
    }
    assert pages[..|pages|] == pages;
  }

  /** The keys on all pages. */
  function Listed(pages: seq<Option<seq<string>>>): seq<string> {
    if pages == [] then []
    else
      var last := pages[|pages| - 1];
      Listed(pages[..|pages| - 1]) + (if last.None? then [] else last.value)
  }

  lemma NothingListed(pages: seq<Option<seq<string>>>)
    ensures Listed(pages[..0]) == []
  {}

  lemma {:induction false} ListedMonotone(pages: seq<Option<seq<string>>>, p: nat)
    requires p <= |pages|
    ensures forall key :: key in Listed(pages[..p]) ==> key in Listed(pages)
  {
    if p == |pages| {
      assert pages[..p] == pages;
    } else {
      var n := |pages| - 1;
      ListedMonotone(pages[..n], p);
      assert pages[..n][..p] == pages[..p];
    }
  }

  lemma ListedMore(pages: seq<Option<seq<string>>>, p: nat, keys: seq<string>)
    requires p < |pages| && pages[p].Some? && keys <= pages[p].value
    ensures keys == pages[p].value ==> Listed(pages[..p]) + keys == Listed(pages[..p + 1])
    ensures forall key :: key in Listed(pages[..p]) + keys ==> key in Listed(pages)
  {
    assert pages[..p + 1][..p] == pages[..p];
    assert Listed(pages[..p + 1]) == Listed(pages[..p]) + pages[p].value;
    ListedMonotone(pages, p + 1);
  }

  lemma WhyFailed(docs: Docs, cs: seq<Change>, keys: seq<string>, rs: seq<Reading>, conditional: bool, done: bool, err: Option<Failure>)
    requires PassedOver(docs, cs, keys, rs, conditional, done, err) && err.Some? && err.value.ClusterFailed?
    ensures err.value.key in keys && PatchFailed(docs, cs, err.value.key, err.value.status)
  {}
}
