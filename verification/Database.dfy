/**
 The database client over the cluster collection: Get, patch with its retry loop,
 PatchWithLease, Lease, EndLease and the Dequeue loop, run against a server on
 which other clients write in between.

 `others[0]` is what the other clients have the server do before it serves our
 next request.  It is arbitrary, so every contract holds for every interleaving.
 */
module Database {
  import opened Wrappers
  import opened Documents

  const MAX_ATTEMPTS: nat := 5

  /** A stored document and its ETag. */
  datatype Versioned = Versioned(doc: Document, etag: nat)

  type Docs = map<DocId, Versioned>

  /** What other clients do: write or delete a document, or let time pass. */
  datatype Foreign = Store(id: DocId, doc: Document) | Erase(id: DocId) | Elapse(ms: nat)

  /** An accepted write: the version it replaced and the version it left. */
  datatype Change = Change(id: DocId, before: Option<Versioned>, after: Option<Versioned>, mine: bool)

  datatype Status = PreconditionFailed | NotFound | Ambiguous | Refused(reason: EditResult)

  datatype Response<+T> = Ok(value: T) | Err(status: Status)

  /** Only options that name the renewLease trigger are ever passed; nil otherwise. */
  datatype Options = NilOptions | RenewLease

  // ---- histories ----

  function Lookup(docs: Docs, id: DocId): Option<Versioned> {
    if id in docs then Some(docs[id]) else None
  }

  function Apply(docs: Docs, c: Change): Docs {
    if c.after.Some? then docs[c.id := c.after.value] else docs - {c.id}
  }

  function Replay(docs: Docs, cs: seq<Change>): Docs {
    if cs == [] then docs else Apply(Replay(docs, cs[..|cs| - 1]), cs[|cs| - 1])
  }

  /** Each change replaced the version that was current, and left a version with a new ETag. */
  ghost predicate Serial(docs: Docs, etag: nat, cs: seq<Change>) {
    && (forall k :: 0 <= k < |cs| ==> cs[k].before == Lookup(Replay(docs, cs[..k]), cs[k].id))
    && (forall k :: 0 <= k < |cs| && cs[k].after.Some? ==> etag <= cs[k].after.value.etag)
  }

  datatype Point = Point(docs: Docs, etag: nat, now: nat)

  /** The changes `cs` lead from one point of a history to the other. */
  ghost predicate Between(a: Point, cs: seq<Change>, b: Point) {
    && a.etag <= b.etag && a.now <= b.now
    && Serial(a.docs, a.etag, cs)
    && b.docs == Replay(a.docs, cs)
  }

  lemma NothingYet(a: Point)
    ensures Between(a, [], a) && AllForeign([])
  {}

  lemma Then(a: Point, cs: seq<Change>, b: Point, more: seq<Change>, c: Point)
    requires Between(a, cs, b) && Between(b, more, c)
    ensures Between(a, cs + more, c)
  {
    SerialAppend(a.docs, a.etag, cs, b.etag, more);
    ReplayAppend(a.docs, cs, more);
  }

  predicate AllForeign(cs: seq<Change>) {
    forall k :: 0 <= k < |cs| ==> !cs[k].mine
  }

  lemma {:induction false} ReplayAppend(docs: Docs, a: seq<Change>, b: seq<Change>)
    ensures Replay(docs, a + b) == Replay(Replay(docs, a), b)
  {
    if b == [] {
      assert a + b == a;
    } else {
      ReplayAppend(docs, a, b[..|b| - 1]);
      assert (a + b)[..|a + b| - 1] == a + b[..|b| - 1];
    }
  }

  lemma SerialAppend(docs: Docs, etag: nat, a: seq<Change>, later: nat, b: seq<Change>)
    requires Serial(docs, etag, a) && Serial(Replay(docs, a), later, b) && etag <= later
    ensures Serial(docs, etag, a + b)
  {
    forall k | 0 <= k < |a + b| ensures (a + b)[k].before == Lookup(Replay(docs, (a + b)[..k]), (a + b)[k].id) {
      if k < |a| {
        assert (a + b)[..k] == a[..k];
      } else {
        assert (a + b)[..k] == a + b[..k - |a|];
        ReplayAppend(docs, a, b[..k - |a|]);
      }
    }
  }

  /** A version that is gone was replaced by a change of its own. */
  lemma {:induction false} GoneMeansReplaced(docs: Docs, etag: nat, cs: seq<Change>, id: DocId, v: Versioned)
    requires Serial(docs, etag, cs) && Lookup(docs, id) == Some(v)
    requires Lookup(Replay(docs, cs), id) != Some(v)
    ensures Rewritten(cs, (id, v))
  {
    var n := |cs| - 1;
    var pre := cs[..n];
    assert forall k :: 0 <= k < n ==> pre[..k] == cs[..k];
    if Lookup(Replay(docs, pre), id) == Some(v) {
      assert cs[n].id == id && cs[n].before == Some(v);
    } else {
      GoneMeansReplaced(docs, etag, pre, id, v);
    }
  }

  /** An ETag older than the whole history still names the version it named before. */
  lemma {:induction false} OldETagOldVersion(docs: Docs, etag: nat, cs: seq<Change>, id: DocId)
    requires Serial(docs, etag, cs)
    requires id in Replay(docs, cs) && Replay(docs, cs)[id].etag < etag
    ensures id in docs && Replay(docs, cs)[id] == docs[id]
  {
    if cs != [] {
      var n := |cs| - 1;
      var pre := cs[..n];
      assert forall k :: 0 <= k < n ==> pre[..k] == cs[..k];
      OldETagOldVersion(docs, etag, pre, id);
    }
  }

  function Stamped(options: Options, doc: Document, now: nat): Document {
    if options.RenewLease? then Renewed(doc, now) else doc
  }

  // ---- readings ----

  /** A version that was read after the first `at` changes, by an attempt that was over after `until`. */
  datatype Reading = Reading(at: nat, until: nat, id: DocId, v: Versioned)

  ghost predicate IsReading(docs: Docs, cs: seq<Change>, key: string, rd: Reading) {
    && rd.at <= rd.until <= |cs|
    && Lookup(Replay(docs, cs[..rd.at]), rd.id) == Some(rd.v)
    && rd.v.doc.identity.key == key
  }

  /** Somebody replaced the version during the attempt. */
  ghost predicate IsLost(cs: seq<Change>, rd: Reading) {
    rd.at <= rd.until <= |cs| && Rewritten(cs[rd.at..rd.until], (rd.id, rd.v))
  }

  /** Attempt after attempt, what was read was stored under the key. */
  ghost predicate Readings(docs: Docs, cs: seq<Change>, key: string, rs: seq<Reading>) {
    && (forall k :: 0 <= k < |rs| ==> IsReading(docs, cs, key, rs[k]))
    && (forall k, l :: 0 <= k < l < |rs| ==> rs[k].until <= rs[l].at)
  }

  ghost predicate AllLost(cs: seq<Change>, rs: seq<Reading>) {
    forall k :: 0 <= k < |rs| ==> IsLost(cs, rs[k])
  }

  function DocsOf(rs: seq<Reading>): (ds: seq<Document>)
    ensures |ds| == |rs| && forall k :: 0 <= k < |rs| ==> ds[k] == rs[k].v.doc
  {
    seq(|rs|, k requires 0 <= k < |rs| => rs[k].v.doc)
  }

  function Shifted(rs: seq<Reading>, n: nat): (ts: seq<Reading>)
    ensures |ts| == |rs|
    ensures forall k :: 0 <= k < |rs| ==> ts[k] == rs[k].(at := rs[k].at + n, until := rs[k].until + n)
  {
    seq(|rs|, k requires 0 <= k < |rs| => rs[k].(at := rs[k].at + n, until := rs[k].until + n))
  }

  predicate HasKey(docs: Docs, id: DocId, key: string) {
    id in docs && docs[id].doc.identity.key == key
  }

  /** How a patch of the document with this key, of at most `attempts` attempts, ended, and why. */
  ghost predicate Explained(f: Document -> EditResult, docs: Docs, cs: seq<Change>, key: string, rs: seq<Reading>,
                            attempts: nat, r: Response<Versioned>) {
    && |rs| <= attempts
    && match r
      case Ok(_) =>
        rs != [] && AllLost(cs, rs[..|rs| - 1]) && f(rs[|rs| - 1].v.doc).Edited?
      case Err(PreconditionFailed) =>
        |rs| == attempts && AllLost(cs, rs)
      case Err(Refused(x)) =>
        rs != [] && AllLost(cs, rs[..|rs| - 1]) && f(rs[|rs| - 1].v.doc) == x && !x.Edited?
      case Err(NotFound) =>
        || (AllLost(cs, rs) && forall id :: !HasKey(Replay(docs, cs), id, key))
        || (rs != [] && AllLost(cs, rs[..|rs| - 1]) && rs[|rs| - 1].id !in Replay(docs, cs))
      case Err(Ambiguous) =>
        AllLost(cs, rs) && exists x, y :: x != y && HasKey(Replay(docs, cs), x, key) && HasKey(Replay(docs, cs), y, key)
  }

  lemma ReadingLater(docs: Docs, cs: seq<Change>, more: seq<Change>, key: string, rd: Reading)
    ensures IsReading(docs, cs, key, rd) ==> IsReading(docs, cs + more, key, rd)
    ensures IsLost(cs, rd) ==> IsLost(cs + more, rd)
  {
    if rd.at <= rd.until <= |cs| {
      assert (cs + more)[..rd.at] == cs[..rd.at] && (cs + more)[rd.at..rd.until] == cs[rd.at..rd.until];
    }
  }

  lemma ReadingShifted(docs: Docs, cs: seq<Change>, more: seq<Change>, key: string, rd: Reading)
    ensures var sh := rd.(at := rd.at + |cs|, until := rd.until + |cs|);
      && (IsReading(Replay(docs, cs), more, key, rd) ==> IsReading(docs, cs + more, key, sh))
      && (IsLost(more, rd) ==> IsLost(cs + more, sh))
  {
    if rd.at <= rd.until <= |more| {
      var sh := rd.(at := rd.at + |cs|, until := rd.until + |cs|);
      assert (cs + more)[..sh.at] == cs + more[..rd.at] && (cs + more)[sh.at..sh.until] == more[rd.at..rd.until];
      ReplayAppend(docs, cs, more[..rd.at]);
    }
  }

  lemma LostLater(cs: seq<Change>, more: seq<Change>, rs: seq<Reading>)
    requires AllLost(cs, rs)
    ensures AllLost(cs + more, rs)
  {
    forall k | 0 <= k < |rs| ensures IsLost(cs + more, rs[k]) {
      ReadingLater(map[], cs, more, "", rs[k]);
    }
  }

  lemma LostShifted(cs: seq<Change>, more: seq<Change>, rs: seq<Reading>)
    requires AllLost(more, rs)
    ensures AllLost(cs + more, Shifted(rs, |cs|))
  {
    forall k | 0 <= k < |rs| ensures IsLost(cs + more, Shifted(rs, |cs|)[k]) {
      ReadingShifted(map[], cs, more, "", rs[k]);
    }
  }

  lemma LostJoin(cs: seq<Change>, more: seq<Change>, rs: seq<Reading>, once: seq<Reading>)
    requires AllLost(cs, rs) && AllLost(more, once)
    ensures AllLost(cs + more, rs + Shifted(once, |cs|))
  {
    LostLater(cs, more, rs);
    LostShifted(cs, more, once);
  }

  lemma ReadingsJoin(docs: Docs, cs: seq<Change>, more: seq<Change>, key: string, rs: seq<Reading>, once: seq<Reading>)
    requires Readings(docs, cs, key, rs) && Readings(Replay(docs, cs), more, key, once)
    ensures Readings(docs, cs + more, key, rs + Shifted(once, |cs|))
  {
    hide IsReading;
    var all := rs + Shifted(once, |cs|);
    forall k | 0 <= k < |all| ensures IsReading(docs, cs + more, key, all[k]) {
      if k < |rs| {
        ReadingLater(docs, cs, more, key, rs[k]);
      } else {
        ReadingShifted(docs, cs, more, key, once[k - |rs|]);
      }
    }
    forall k, l | 0 <= k < l < |all| ensures all[k].until <= all[l].at {
      if k < |rs| <= l {
        ReadingBounds(docs, cs, key, rs[k]);
      }
    }
  }

  lemma ReadingBounds(docs: Docs, cs: seq<Change>, key: string, rd: Reading)
    requires IsReading(docs, cs, key, rd)
    ensures rd.at <= rd.until <= |cs|
  {}

  /** One more attempt after some that were lost. */
  lemma ExplainedJoin(f: Document -> EditResult, docs: Docs, cs: seq<Change>, more: seq<Change>, key: string,
                      rs: seq<Reading>, once: seq<Reading>, r: Response<Versioned>)
    requires AllLost(cs, rs) && Explained(f, Replay(docs, cs), more, key, once, 1, r)
    ensures Explained(f, docs, cs + more, key, rs + Shifted(once, |cs|), |rs| + 1, r)
  {
    ReplayAppend(docs, cs, more);
    var all := rs + Shifted(once, |cs|);
    if once == [] {
      assert all == rs;
      LostLater(cs, more, rs);
    } else {
      assert all[..|all| - 1] == rs && once[..0] == [];
      LostLater(cs, more, rs);
      if AllLost(more, once) {
        LostShifted(cs, more, once);
      }
    }
  }

  /** The same patch, seen from an earlier point of the history. */
  lemma ExplainedShifted(f: Document -> EditResult, docs: Docs, cs: seq<Change>, more: seq<Change>, key: string,
                         rs: seq<Reading>, attempts: nat, r: Response<Versioned>)
    requires Explained(f, Replay(docs, cs), more, key, rs, attempts, r)
    ensures Explained(f, docs, cs + more, key, Shifted(rs, |cs|), attempts, r)
  {
    hide AllLost, Replay, HasKey;
    ReplayAppend(docs, cs, more);
    var sh := Shifted(rs, |cs|);
    if AllLost(more, rs) {
      LostShifted(cs, more, rs);
    }
    if rs != [] && AllLost(more, rs[..|rs| - 1]) {
      LostShifted(cs, more, rs[..|rs| - 1]);
      assert Shifted(rs[..|rs| - 1], |cs|) == sh[..|rs| - 1];
    }
  }

  lemma ExplainedAllows(f: Document -> EditResult, docs: Docs, cs: seq<Change>, key: string, rs: seq<Reading>,
                        n: nat, attempts: nat, r: Response<Versioned>)
    requires Explained(f, docs, cs, key, rs, n, r) && r != Err(PreconditionFailed) && n <= attempts
    ensures Explained(f, docs, cs, key, rs, attempts, r)
  {}

  /**
   The history ends with our one write, of what `f` makes of the version `rd` that
   was read.  If the write was conditional, that is the version it replaced.
   */
  ghost predicate OneWrite(f: Document -> EditResult, options: Options, conditional: bool, cs: seq<Change>,
                           id: DocId, read: Versioned, v: Versioned, now: nat) {
    && cs != [] && AllForeign(cs[..|cs| - 1])
    && f(read.doc).Edited? && v.doc == Stamped(options, f(read.doc).doc, now)
    && var c := cs[|cs| - 1];
      c == Change(id, c.before, Some(v), true) && c.before.Some? && (conditional ==> c.before == Some(read))
  }

  function Editor(w: Write): Document -> EditResult {
    d => Edit(w, d)
  }

  type Candidate = (DocId, Versioned)

  /** The documents of one result page of the Dequeue query. */
  function Select(docs: Docs, now: nat, ids: seq<DocId>): (found: seq<Candidate>)
    ensures forall x :: x in found ==> x.0 in ids && Lookup(docs, x.0) == Some(x.1) && Eligible(x.1.doc, now)
    ensures forall id :: id in ids && id in docs && Eligible(docs[id].doc, now) ==> (id, docs[id]) in found
  {
    if ids == [] then []
    else
      var rest := Select(docs, now, ids[1..]);
      if ids[0] in docs && Eligible(docs[ids[0]].doc, now) then [(ids[0], docs[ids[0]])] + rest else rest
  }

  /** Some change in `cs` replaced exactly the version `x`. */
  ghost predicate Rewritten(cs: seq<Change>, x: Candidate) {
    exists k :: 0 <= k < |cs| && cs[k].id == x.0 && cs[k].before == Some(x.1)
  }

  lemma RewrittenLater(cs: seq<Change>, more: seq<Change>, x: Candidate)
    requires Rewritten(cs, x) || Rewritten(more, x)
    ensures Rewritten(cs + more, x)
  {
    if Rewritten(cs, x) {
      var k :| 0 <= k < |cs| && cs[k].id == x.0 && cs[k].before == Some(x.1);
      assert (cs + more)[k] == cs[k];
    } else {
      var k :| 0 <= k < |more| && more[k].id == x.0 && more[k].before == Some(x.1);
      assert (cs + more)[|cs| + k] == more[k];
    }
  }

  ghost predicate AllRewritten(cs: seq<Change>, found: seq<Candidate>) {
    forall i :: 0 <= i < |found| ==> Rewritten(cs, found[i])
  }

  /** The document `id` is a candidate, and all candidates before it have been rewritten. */
  ghost predicate FirstLeft(cs: seq<Change>, found: seq<Candidate>, id: DocId) {
    exists j :: 0 <= j < |found| && found[j].0 == id && AllRewritten(cs, found[..j])
  }

  lemma AllRewrittenLater(found: seq<Candidate>, cs: seq<Change>, more: seq<Change>)
    requires AllRewritten(cs, found)
    ensures AllRewritten(cs + more, found)
  {
    forall i | 0 <= i < |found| ensures Rewritten(cs + more, found[i]) {
      RewrittenLater(cs, more, found[i]);
    }
  }

  // ---- pages ----

  /** A page of the query was served after the first `at` changes, at server time `time`. */
  datatype PageRead = PageRead(at: nat, time: nat)

  /** Since the page was read, all its candidates have been rewritten. */
  ghost predicate PageTaken(docs: Docs, cs: seq<Change>, page: PageRead, ids: seq<DocId>) {
    page.at <= |cs| && AllRewritten(cs[page.at..], Select(Replay(docs, cs[..page.at]), page.time, ids))
  }

  /** Since the page was read, all its candidates before `id` have been rewritten. */
  ghost predicate PageLeft(docs: Docs, cs: seq<Change>, page: PageRead, ids: seq<DocId>, id: DocId) {
    page.at <= |cs| && FirstLeft(cs[page.at..], Select(Replay(docs, cs[..page.at]), page.time, ids), id)
  }

  ghost predicate PagesTaken(docs: Docs, cs: seq<Change>, read: seq<PageRead>, pages: seq<seq<DocId>>) {
    |read| <= |pages| && forall p :: 0 <= p < |read| ==> PageTaken(docs, cs, read[p], pages[p])
  }

  /** All pages before the last that was read are taken, and on that one everything before `id`. */
  ghost predicate LeftAfter(docs: Docs, cs: seq<Change>, read: seq<PageRead>, pages: seq<seq<DocId>>, id: DocId) {
    && 0 < |read| <= |pages|
    && PagesTaken(docs, cs, read[..|read| - 1], pages)
    && PageLeft(docs, cs, read[|read| - 1], pages[|read| - 1], id)
  }

  /** The pages were read one after the other, between two times. */
  ghost predicate InTurn(read: seq<PageRead>, changes: nat, from: nat, to: nat) {
    && (forall p :: 0 <= p < |read| ==> read[p].at <= changes && from <= read[p].time <= to)
    && (forall p, q :: 0 <= p < q < |read| ==> read[p].at <= read[q].at && read[p].time <= read[q].time)
  }

  lemma PagesTakenLater(docs: Docs, cs: seq<Change>, more: seq<Change>, read: seq<PageRead>, pages: seq<seq<DocId>>)
    requires PagesTaken(docs, cs, read, pages)
    ensures PagesTaken(docs, cs + more, read, pages)
  {
    forall p | 0 <= p < |read| ensures PageTaken(docs, cs + more, read[p], pages[p]) {
      var n := read[p].at;
      assert PageTaken(docs, cs, read[p], pages[p]);
      assert (cs + more)[..n] == cs[..n] && (cs + more)[n..] == cs[n..] + more;
      AllRewrittenLater(Select(Replay(docs, cs[..n]), read[p].time, pages[p]), cs[n..], more);
    }
  }

  lemma PageLater(docs: Docs, cs: seq<Change>, more: seq<Change>, page: PageRead, ids: seq<DocId>)
    ensures PageTaken(Replay(docs, cs), more, page, ids) ==> PageTaken(docs, cs + more, PageRead(|cs| + page.at, page.time), ids)
    ensures forall id :: PageLeft(Replay(docs, cs), more, page, ids, id) ==>
      PageLeft(docs, cs + more, PageRead(|cs| + page.at, page.time), ids, id)
  {
    hide Select, AllRewritten, FirstLeft, Replay;
    if page.at <= |more| {
      ReplayAppend(docs, cs, more[..page.at]);
      assert (cs + more)[..|cs| + page.at] == cs + more[..page.at] && (cs + more)[|cs| + page.at..] == more[page.at..];
    }
  }

  /** What an empty answer of Dequeue means for each document that was eligible when its page was read. */
  lemma NothingLeft(docs: Docs, cs: seq<Change>, read: seq<PageRead>, pages: seq<seq<DocId>>, p: nat, id: DocId, v: Versioned)
    requires AllForeign(cs) && |read| == |pages| && PagesTaken(docs, cs, read, pages) && p < |pages| && id in pages[p]
    requires read[p].at <= |cs| && Lookup(Replay(docs, cs[..read[p].at]), id) == Some(v) && Eligible(v.doc, read[p].time)
    ensures exists k :: read[p].at <= k < |cs| && !cs[k].mine && cs[k].id == id && cs[k].before == Some(v)
  {
    var n := read[p].at;
    assert PageTaken(docs, cs, read[p], pages[p]);
    var found := Select(Replay(docs, cs[..n]), read[p].time, pages[p]);
    assert (id, v) in found;
    var i :| 0 <= i < |found| && found[i] == (id, v);
    var k :| 0 <= k < |cs[n..]| && cs[n..][k].id == id && cs[n..][k].before == Some(v);
    assert cs[n + k] == cs[n..][k];
  }

  /** The last change is the Dequeue by `uuid` of a document that is in progress and expired at that moment. */
  ghost predicate Claimed(uuid: Uuid, now: nat, cs: seq<Change>, x: Candidate) {
    && cs != [] && AllForeign(cs[..|cs| - 1])
    && var c := cs[|cs| - 1];
      && c.mine && c.id == x.0 && c.after == Some(x.1)
      && c.before.Some? && Eligible(c.before.value.doc, now)
      && x.1.doc == Stamp(Dequeue(uuid, 0), Edit(Dequeue(uuid, 0), c.before.value.doc).doc, now)
  }

  lemma ClaimedAfter(uuid: Uuid, now: nat, cs: seq<Change>, more: seq<Change>, x: Candidate)
    requires AllForeign(cs) && Claimed(uuid, now, more, x)
    ensures Claimed(uuid, now, cs + more, x)
  {
    assert (cs + more)[..|cs + more| - 1] == cs + more[..|more| - 1];
  }

  lemma ForeignAppend(cs: seq<Change>, more: seq<Change>)
    requires AllForeign(cs) && AllForeign(more)
    ensures AllForeign(cs + more)
  {}

  class Clusters {
    const uuid: Uuid
    const nilSendsIfMatch: bool
    var docs: Docs
    var nextETag: nat
    var now: nat
    var others: seq<seq<Foreign>>
    ghost var history: seq<Change>

    constructor (uuid: Uuid, nilSendsIfMatch: bool, now: nat, others: seq<seq<Foreign>>)
      ensures Valid() && docs == map[] && history == [] && this.uuid == uuid
      ensures this.nilSendsIfMatch == nilSendsIfMatch && this.now == now && this.others == others
    {
      this.uuid, this.nilSendsIfMatch := uuid, nilSendsIfMatch;
      this.docs, this.nextETag, this.now, this.others, this.history := map[], 0, now, others, [];
    }

    ghost predicate Valid()
      reads this
    {
      forall id :: id in docs ==> docs[id].etag < nextETag
    }

    predicate SendsIfMatch(options: Options) {
      nilSendsIfMatch || options.RenewLease?
    }

    function Here(): Point
      reads this
    {
      Point(docs, nextETag, now)
    }

    /** From `start` to the present state, the server has done `cs`. */
    ghost predicate Since(start: Point, cs: seq<Change>)
      reads this
    {
      Valid() && Between(start, cs, Here())
    }

    /** The server stores or deletes a document. */
    method Accept(id: DocId, doc: Option<Document>, ghost mine: bool) returns (ghost c: Change)
      requires Valid()
      modifies this`docs, this`nextETag, this`history
      ensures nextETag == old(nextETag) + 1
      ensures c == Change(id, old(Lookup(docs, id)),
                          if doc.None? then None else Some(Versioned(doc.value, old(nextETag))), mine)
      ensures history == old(history) + [c] && Since(old(Here()), [c])
    {
      c := Change(id, Lookup(docs, id), if doc.None? then None else Some(Versioned(doc.value, nextETag)), mine);
      assert Replay(docs, [c]) == Apply(Replay(docs, []), c) && [c][..0] == [];
      history := history + [c];
      docs := if doc.None? then docs - {id} else docs[id := Versioned(doc.value, nextETag)];
      nextETag := nextETag + 1;
    }

    method Serve(x: Foreign) returns (ghost cs: seq<Change>)
      requires Valid()
      modifies this`docs, this`nextETag, this`now, this`history
      ensures history == old(history) + cs && AllForeign(cs)
      ensures Since(old(Here()), cs)
    {
      match x
      case Elapse(ms) =>
        now := now + ms;
        cs := [];
      case Store(id, doc) =>
        ghost var c := Accept(id, Some(doc), false);
        cs := [c];
      case Erase(id) =>
        ghost var c := Accept(id, None, false);
        cs := [c];
    }

    /** The other clients' turn. */
    method Interleave() returns (ghost cs: seq<Change>)
      requires Valid()
      modifies this`docs, this`nextETag, this`now, this`others, this`history
      ensures history == old(history) + cs && AllForeign(cs)
      ensures Since(old(Here()), cs)
    {
      hide Between, AllForeign;
      NothingYet(Here());
      cs := [];
      if others == [] {
        return;
      }
      var turn := others[0];
      others := others[1..];
      for i := 0 to |turn|
        invariant history == old(history) + cs && AllForeign(cs)
        invariant Since(old(Here()), cs)
      {
        ghost var here := Here();
        ghost var more := Serve(turn[i]);
        assert old(history) + cs + more == old(history) + (cs + more);
        Then(old(Here()), cs, here, more, Here());
        ForeignAppend(cs, more);
        cs := cs + more;
      }
    }

    method Get(key: string) returns (r: Response<(DocId, Versioned)>, ghost cs: seq<Change>)
      requires Valid()
      modifies this`docs, this`nextETag, this`now, this`others, this`history
      ensures history == old(history) + cs && AllForeign(cs)
      ensures Since(old(Here()), cs)
      ensures match r
        case Ok((id, v)) => HasKey(docs, id, key) && docs[id] == v && forall x :: HasKey(docs, x, key) ==> x == id
        case Err(NotFound) => forall x :: !HasKey(docs, x, key)
        case Err(Ambiguous) => exists x, y :: x != y && HasKey(docs, x, key) && HasKey(docs, y, key)
        case _ => false
    {
      cs := Interleave();
      var found := set id | id in docs && docs[id].doc.identity.key == key;
      assert forall id :: HasKey(docs, id, key) <==> id in found;
      if |found| > 1 {
        TwoElements(found);
        r := Err(Ambiguous);
      } else if id :| id in found {
        assert found == {id} by {
          assert |found - {id}| == 0;
        }
        r := Ok((id, docs[id]));
      } else {
        r := Err(NotFound);
      }
    }

    method Replace(id: DocId, doc: Document, etag: nat, options: Options)
      returns (r: Response<Versioned>, ghost cs: seq<Change>)
      requires Valid()
      modifies this`docs, this`nextETag, this`now, this`others, this`history
      ensures history == old(history) + cs && Since(old(Here()), cs)
      ensures r.Err? ==> AllForeign(cs)
      ensures r == Err(PreconditionFailed) ==> SendsIfMatch(options) && id in docs && docs[id].etag != etag
      ensures r.Err? && !r.status.PreconditionFailed? ==> r.status.NotFound? && id !in docs
      ensures r.Ok? ==>
        && cs != [] && AllForeign(cs[..|cs| - 1])
        && r.value.doc == Stamped(options, doc, now)
        && var c := cs[|cs| - 1];
          && c == Change(id, c.before, Some(r.value), true)
          && c.before.Some? && (SendsIfMatch(options) ==> c.before.value.etag == etag)
    {
      hide Between;
      cs := Interleave();
      if id !in docs {
        r := Err(NotFound);
      } else if SendsIfMatch(options) && docs[id].etag != etag {
        r := Err(PreconditionFailed);
      } else {
        var v := Versioned(Stamped(options, doc, now), nextETag);
        ghost var here := Here();
        ghost var c := Accept(id, Some(v.doc), true);
        Then(old(Here()), cs, here, [c], Here());
        cs := cs + [c];
        r := Ok(v);
      }
    }

    /** One round of patch: read, edit, write back. */
    method Attempt(key: string, f: Document -> EditResult, options: Options)
      returns (r: Response<Versioned>, seen: seq<Document>, ghost rs: seq<Reading>, ghost cs: seq<Change>)
      requires Valid()
      modifies this`docs, this`nextETag, this`now, this`others, this`history
      ensures history == old(history) + cs && Since(old(Here()), cs)
      ensures r.Err? ==> AllForeign(cs)
      ensures seen == DocsOf(rs) && Readings(old(docs), cs, key, rs)
      ensures Explained(f, old(docs), cs, key, rs, 1, r)
      ensures r.Ok? ==> OneWrite(f, options, SendsIfMatch(options), cs, rs[0].id, rs[0].v, r.value, now)
      ensures r == Err(PreconditionFailed) ==> SendsIfMatch(options)
    {
      hide Serial, Replay, Rewritten;
      var got, read := Get(key);
      cs := read;
      if got.Err? {
        r, seen, rs := Err(got.status), [], [];
        return;
      }
      var (id, v) := got.value;
      seen := [v.doc];
      var edited := f(v.doc);
      rs := [Reading(|read|, |read|, id, v)];
      assert read[..|read|] == read;
      if !edited.Edited? {
        r := Err(Refused(edited));
        return;
      }
      ghost var here := Here();
      ghost var written;
      r, written := Replace(id, edited.doc, v.etag, options);
      Then(old(Here()), read, here, written, Here());
      cs := read + written;
      rs := [Reading(|read|, |cs|, id, v)];
      assert cs[..|read|] == read && cs[|read|..|cs|] == written;
      if r.Ok? {
        assert cs[..|cs| - 1] == read + written[..|written| - 1];
        if SendsIfMatch(options) {
          IfMatchIsCurrent(here.docs, here.etag, written, id, v);
        }
      } else if r == Err(PreconditionFailed) {
        GoneMeansReplaced(here.docs, here.etag, written, id, v);
      }
    }

    /**
     patch: at most five attempts.  Success stores one write, computed from the
     version it replaces if it is conditional; any error leaves no write of ours and
     has the reason that `Explained` states.  `seen` are the documents that the
     closure was applied to, and `rs` where they were found.
     */
    method Patch(key: string, f: Document -> EditResult, options: Options)
      returns (r: Response<Versioned>, seen: seq<Document>, ghost rs: seq<Reading>, ghost cs: seq<Change>)
      requires Valid()
      modifies this`docs, this`nextETag, this`now, this`others, this`history
      ensures history == old(history) + cs && Since(old(Here()), cs)
      ensures r.Err? ==> AllForeign(cs)
      ensures seen == DocsOf(rs) && Readings(old(docs), cs, key, rs)
      ensures Explained(f, old(docs), cs, key, rs, MAX_ATTEMPTS, r)
      ensures r.Ok? ==> rs != []
      ensures r.Ok? ==>
        OneWrite(f, options, SendsIfMatch(options), cs, rs[|rs| - 1].id, rs[|rs| - 1].v, r.value, now)
      ensures r == Err(PreconditionFailed) ==> SendsIfMatch(options) && |rs| == 5
    {
      hide Between, OneWrite, AllForeign, Readings, Explained, AllLost;
      NothingYet(Here());
      NothingRead(docs, key);
      ghost var start := Here();
      r, seen, rs, cs := Err(PreconditionFailed), [], [], [];
      var i := 0;
      while i < MAX_ATTEMPTS
        invariant i <= MAX_ATTEMPTS && |rs| == i && seen == DocsOf(rs)
        invariant r == Err(PreconditionFailed) && AllForeign(cs) && (i > 0 ==> SendsIfMatch(options))
        invariant history == old(history) + cs && Since(start, cs)
        invariant Readings(start.docs, cs, key, rs) && AllLost(cs, rs)
      {
        ghost var here, before, earlier := Here(), cs, rs;
        var docs;
        ghost var once, more;
        r, docs, once, more := Attempt(key, f, options);
        assert old(history) + cs + more == old(history) + (cs + more);
        Then(start, cs, here, more, Here());
        BetweenReplays(start, cs, here);
        ReadingsJoin(start.docs, cs, more, key, rs, once);
        ExplainedJoin(f, start.docs, cs, more, key, rs, once, r);
        ExplainedOnce(f, start.docs, cs, more, key, rs, once, r);
        cs, seen, rs := cs + more, seen + docs, rs + Shifted(once, |cs|);
        assert seen == DocsOf(rs);
        if r.Ok? {
          OneWriteAfter(f, options, SendsIfMatch(options), before, more, once[0].id, once[0].v, r.value, now);
          ExplainedAllows(f, start.docs, cs, key, rs, i + 1, MAX_ATTEMPTS, r);
          return;
        }
        ForeignAppend(before, more);
        if r != Err(PreconditionFailed) {
          ExplainedAllows(f, start.docs, cs, key, rs, i + 1, MAX_ATTEMPTS, r);
          return;
        }
        i := i + 1;
      }
      FiveConflicts(f, start.docs, cs, key, rs);
    }

    /** Lease, PatchWithLease and EndLease: patch with a check of the owner. */
    method PatchWithLease(key: string, w: Write)
      returns (r: Response<Versioned>, ghost rs: seq<Reading>, ghost cs: seq<Change>)
      requires Valid() && Holder(w) == Some(uuid)
      modifies this`docs, this`nextETag, this`now, this`others, this`history
      ensures history == old(history) + cs && Since(old(Here()), cs)
      ensures r.Err? ==> AllForeign(cs)
      ensures Readings(old(docs), cs, key, rs) && Explained(Editor(w), old(docs), cs, key, rs, MAX_ATTEMPTS, r)
      ensures r == Err(Refused(LostLease)) ==>
        rs != [] && rs[|rs| - 1].v.doc.leaseOwner != Some(uuid)
      ensures r.Ok? ==> rs != [] && rs[|rs| - 1].v.doc.leaseOwner == Some(uuid)
      ensures r.Ok? ==>
        && cs != [] && AllForeign(cs[..|cs| - 1])
        && var c, read := cs[|cs| - 1], rs[|rs| - 1];
          && c == Change(read.id, c.before, Some(r.value), true) && c.before.Some?
          && Edit(w, read.v.doc).Edited? && r.value.doc == Stamp(w, Edit(w, read.v.doc).doc, now)
          && (nilSendsIfMatch || w.Lease? ==> c.before == Some(read.v))
    {
      hide Between, Readings, AllLost;
      var options := if w.Lease? then RenewLease else NilOptions;
      var seen;
      r, seen, rs, cs := Patch(key, Editor(w), options);
    }

    /** Try one candidate, listed at `start`, after the changes `cs0`. */
    method ClaimOne(x: Candidate, ghost start: Point, ghost cs0: seq<Change>)
      returns (r: Response<Candidate>, ghost more: seq<Change>)
      requires Since(start, cs0) && AllForeign(cs0)
      requires Lookup(start.docs, x.0) == Some(x.1) && x.1.etag < start.etag && Eligible(x.1.doc, start.now)
      modifies this`docs, this`nextETag, this`now, this`others, this`history
      ensures history == old(history) + more && Since(start, cs0 + more)
      ensures r.Err? ==> AllForeign(cs0 + more)
      ensures match r
        case Ok(c) => c.0 == x.0 && Claimed(uuid, now, cs0 + more, c)
        case Err(PreconditionFailed) => Rewritten(cs0 + more, x)
        case Err(NotFound) => x.0 !in docs
        case _ => false
    {
      hide Serial, Replay, Rewritten;
      var (id, v) := x;
      ghost var here := Here();
      var doc := v.doc.(leaseOwner := Some(uuid), dequeues := v.doc.dequeues + 1);
      var written;
      written, more := Replace(id, doc, v.etag, RenewLease);
      Then(start, cs0, here, more, Here());
      ghost var cs := cs0 + more;
      if written.Ok? {
        assert cs[..|cs| - 1] == cs0 + more[..|more| - 1];
        IfMatchIsCurrent(start.docs, start.etag, cs, id, v);
        r := Ok((id, written.value));
      } else {
        r := Err(written.status);
        if r.status.PreconditionFailed? {
          GoneMeansReplaced(start.docs, start.etag, cs, id, v);
        }
      }
    }

    /** Try the candidates of one page in order, until one is claimed or gone. */
    method Claim(found: seq<Candidate>) returns (r: Response<Option<Candidate>>, ghost cs: seq<Change>)
      requires Valid()
      requires forall x :: x in found ==> Lookup(docs, x.0) == Some(x.1) && Eligible(x.1.doc, now)
      modifies this`docs, this`nextETag, this`now, this`others, this`history
      ensures history == old(history) + cs && Since(old(Here()), cs)
      ensures match r
        case Ok(None) => AllForeign(cs) && AllRewritten(cs, found)
        case Ok(Some(c)) => Claimed(uuid, now, cs, c) && FirstLeft(cs, found, c.0)
        case Err(NotFound) => AllForeign(cs) && exists id :: FirstLeft(cs, found, id) && id !in docs
        case _ => false
    {
      hide Between, Rewritten, Claimed, AllForeign;
      NothingYet(Here());
      ghost var start := Here();
      cs := [];
      for j := 0 to |found|
        invariant history == old(history) + cs && Since(start, cs) && AllForeign(cs)
        invariant AllRewritten(cs, found[..j])
      {
        assert found[j] in found;
        var won;
        ghost var more;
        won, more := ClaimOne(found[j], start, cs);
        assert old(history) + cs + more == old(history) + (cs + more);
        AllRewrittenLater(found[..j], cs, more);
        cs := cs + more;
        if won.Ok? {
          r := Ok(Some(won.value));
          return;
        }
        if !won.status.PreconditionFailed? {
          assert FirstLeft(cs, found, found[j].0);
          r := Err(won.status);
          return;
        }
        assert found[..j + 1] == found[..j] + [found[j]];
      }
      assert found[..|found|] == found;
      r := Ok(None);
    }

    /** Query one page and try its candidates; `page` says when the query was served. */
    method ClaimPage(ids: seq<DocId>)
      returns (r: Response<Option<Candidate>>, ghost page: PageRead, ghost cs: seq<Change>)
      requires Valid()
      modifies this`docs, this`nextETag, this`now, this`others, this`history
      ensures history == old(history) + cs && Since(old(Here()), cs)
      ensures page.at <= |cs| && old(now) <= page.time <= now
      ensures match r
        case Ok(None) => AllForeign(cs) && PageTaken(old(docs), cs, page, ids)
        case Ok(Some(c)) => Claimed(uuid, now, cs, c) && PageLeft(old(docs), cs, page, ids, c.0)
        case Err(NotFound) => AllForeign(cs) && exists id :: PageLeft(old(docs), cs, page, ids, id) && id !in docs
        case _ => false
    {
      hide Between, Rewritten, AllRewritten, FirstLeft, Replay;
      ghost var queried := Interleave();
      BetweenReplays(old(Here()), queried, Here());
      var found := Select(docs, now, ids);
      page := PageRead(|queried|, now);
      ghost var here := Here();
      ghost var claimed;
      r, claimed := Claim(found);
      BetweenReplays(here, claimed, Here());
      Then(old(Here()), queried, here, claimed, Here());
      assert old(history) + queried + claimed == old(history) + (queried + claimed);
      cs := queried + claimed;
      assert cs[..|queried|] == queried && cs[|queried|..] == claimed;
      match r
      case Ok(None) =>
      case Ok(Some(c)) => ClaimedAfter(uuid, now, queried, claimed, c);
      case Err(_) =>
        ghost var id :| FirstLeft(claimed, found, id) && id !in docs;
        assert PageLeft(old(docs), cs, page, ids, id);
    }

    /**
     Dequeue: page after page of the query, try each candidate.  `read` says when
     each page was read.  Nothing is returned only if somebody else has rewritten
     every document that was eligible when its page was read; otherwise the first
     that was left is claimed, or it is gone and that is the error.
     */
    method Dequeue(pages: seq<seq<DocId>>)
      returns (r: Response<Option<Candidate>>, ghost read: seq<PageRead>, ghost cs: seq<Change>)
      requires Valid()
      modifies this`docs, this`nextETag, this`now, this`others, this`history
      ensures history == old(history) + cs && Since(old(Here()), cs)
      ensures |read| <= |pages| && InTurn(read, |cs|, old(now), now)
      ensures match r
        case Ok(None) => AllForeign(cs) && |read| == |pages| && PagesTaken(old(docs), cs, read, pages)
        case Ok(Some(c)) => Claimed(uuid, now, cs, c) && LeftAfter(old(docs), cs, read, pages, c.0)
        case Err(NotFound) => AllForeign(cs) && exists id :: LeftAfter(old(docs), cs, read, pages, id) && id !in docs
        case _ => false
    {
      hide Between, Claimed, AllForeign, PageTaken, PageLeft;
      NothingYet(Here());
      ghost var start := Here();
      read, cs := [], [];
      for p := 0 to |pages|
        invariant history == old(history) + cs && Since(start, cs) && AllForeign(cs)
        invariant |read| == p && InTurn(read, |cs|, start.now, now) && PagesTaken(start.docs, cs, read, pages)
      {
        ghost var here, before := Here(), cs;
        ghost var page, more;
        r, page, more := ClaimPage(pages[p]);
        Then(start, cs, here, more, Here());
        BetweenReplays(start, cs, here);
        assert old(history) + cs + more == old(history) + (cs + more);
        ghost var late := PageRead(|cs| + page.at, page.time);
        PagesTakenLater(start.docs, cs, more, read, pages);
        PageLater(start.docs, cs, more, page, pages[p]);
        cs := cs + more;
        read := read + [late];
        match r {
          case Ok(None) =>
            ForeignAppend(before, more);
          case Ok(Some(c)) =>
            ClaimedAfter(uuid, now, before, more, c);
            assert read[..p] + [late] == read && LeftAfter(start.docs, cs, read, pages, c.0);
            return;
          case Err(_) =>
            ForeignAppend(before, more);
            ghost var id :| PageLeft(here.docs, more, page, pages[p], id) && id !in docs;
            assert LeftAfter(start.docs, cs, read, pages, id);
            return;
        }
      }
      r := Ok(None);
    }
  }

  lemma OneWriteAfter(f: Document -> EditResult, options: Options, conditional: bool, cs: seq<Change>, more: seq<Change>,
                      id: DocId, read: Versioned, v: Versioned, now: nat)
    requires AllForeign(cs) && OneWrite(f, options, conditional, more, id, read, v, now)
    ensures OneWrite(f, options, conditional, cs + more, id, read, v, now)
  {
    assert (cs + more)[..|cs + more| - 1] == cs + more[..|more| - 1];
  }

  lemma NothingRead(docs: Docs, key: string)
    ensures Readings(docs, [], key, []) && AllLost([], [])
  {}

  lemma BetweenReplays(a: Point, cs: seq<Change>, b: Point)
    requires Between(a, cs, b)
    ensures b.docs == Replay(a.docs, cs) && a.now <= b.now
  {}

  /** An attempt that succeeds has read once; so has one that conflicts, and what it read is lost. */
  lemma ExplainedOnce(f: Document -> EditResult, docs: Docs, cs: seq<Change>, more: seq<Change>, key: string,
                      rs: seq<Reading>, once: seq<Reading>, r: Response<Versioned>)
    requires AllLost(cs, rs) && Explained(f, Replay(docs, cs), more, key, once, 1, r)
    ensures r.Ok? || r == Err(PreconditionFailed) ==> |once| == 1
    ensures r == Err(PreconditionFailed) ==> AllLost(cs + more, rs + Shifted(once, |cs|))
  {
    if r == Err(PreconditionFailed) {
      LostJoin(cs, more, rs, once);
    }
  }

  lemma FiveConflicts(f: Document -> EditResult, docs: Docs, cs: seq<Change>, key: string, rs: seq<Reading>)
    requires |rs| == MAX_ATTEMPTS && AllLost(cs, rs)
    ensures Explained(f, docs, cs, key, rs, MAX_ATTEMPTS, Err(PreconditionFailed))
  {}

  lemma TwoElements(s: set<DocId>)
    requires |s| > 1
    ensures exists x, y :: x in s && y in s && x != y
  {
    var x :| x in s;
    assert |s - {x}| > 0;
    var y :| y in s - {x};
  }

  /** If the last write replaced a version with the ETag of `v`, read earlier, it replaced `v` itself. */
  lemma IfMatchIsCurrent(docs: Docs, etag: nat, cs: seq<Change>, id: DocId, v: Versioned)
    requires Serial(docs, etag, cs) && cs != [] && Lookup(docs, id) == Some(v) && v.etag < etag
    requires cs[|cs| - 1].id == id && cs[|cs| - 1].before.Some? && cs[|cs| - 1].before.value.etag == v.etag
    ensures cs[|cs| - 1].before == Some(v)
  {
    var n := |cs| - 1;
    assert forall k :: 0 <= k < n ==> cs[..n][..k] == cs[..k];
    OldETagOldVersion(docs, etag, cs[..n], id);
  }
}
