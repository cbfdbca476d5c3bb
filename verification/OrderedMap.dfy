/**
 Reading and writing JSON objects as key/value lists that keep the order of the
 keys, at the level of the members of the object: a nested value is one lexeme, and
 how values themselves are encoded is a parameter.
 */
module OrderedMap {
  import opened Wrappers

  datatype Json = JString(s: string) | JOther(n: int)

  const JSON_NULL := JOther(0)

  datatype Lexeme = LBrace | RBrace | Colon | Comma | Item(json: Json)

  datatype Pair<T> = Pair(key: string, value: T)

  // ---- the token stream of the JSON decoder ----

  datatype Position = TopValue | ObjectStart | ObjectKey | ObjectColon | ObjectValue | ObjectComma | End

  datatype Token = Open | Close | Word(s: string) | Other

  datatype Cursor = Cursor(position: Position, rest: seq<Lexeme>)

  /** The next token; it skips a comma or colon where one belongs.  `None` is a syntax error or the end. */
  function Next(c: Cursor): Option<(Token, Cursor)>
    decreases |c.rest|
  {
    if c.rest == [] then None
    else
      var rest := c.rest[1..];
      match c.rest[0]
      case LBrace => if c.position.TopValue? then Some((Open, Cursor(ObjectStart, rest))) else None
      case RBrace =>
        if c.position.ObjectStart? || c.position.ObjectComma? then Some((Close, Cursor(End, rest))) else None
      case Colon => if c.position.ObjectColon? then Next(Cursor(ObjectValue, rest)) else None
      case Comma => if c.position.ObjectComma? then Next(Cursor(ObjectKey, rest)) else None
      case Item(j) =>
        if (c.position.ObjectStart? || c.position.ObjectKey?) && j.JString? then Some((Word(j.s), Cursor(ObjectColon, rest)))
        else if c.position.TopValue? then Some((Other, Cursor(End, rest)))
        else if c.position.ObjectValue? then Some((Other, Cursor(ObjectComma, rest)))
        else None
  }

  /** The value after a key. */
  function Value(c: Cursor): Option<(Json, Cursor)> {
    if c.position.ObjectColon? && |c.rest| >= 2 && c.rest[0].Colon? && c.rest[1].Item?
    then Some((c.rest[1].json, Cursor(ObjectComma, c.rest[2..])))
    else None
  }

  // ---- the grammar ----

  /** The lexemes of members, `first` if none precedes them. */
  function Body(first: bool, ps: seq<Pair<Json>>): seq<Lexeme> {
    if ps == [] then []
    else (if first then [] else [Comma]) + [Item(JString(ps[0].key)), Colon, Item(ps[0].value)] + Body(false, ps[1..])
  }

  /** The lexemes of the rest of an object. */
  function Members(first: bool, ps: seq<Pair<Json>>): seq<Lexeme> {
    Body(first, ps) + [RBrace]
  }

  function Object(ps: seq<Pair<Json>>): seq<Lexeme> {
    [LBrace] + Members(true, ps)
  }

  function ParseMembers(first: bool, ts: seq<Lexeme>): Option<seq<Pair<Json>>> {
    if ts == [] then None
    else if ts[0].RBrace? then Some([])
    else if !first && !ts[0].Comma? then None
    else
      var k := if first then 0 else 1;
      if |ts| < k + 3 || !ts[k].Item? || !ts[k].json.JString? || !ts[k + 1].Colon? || !ts[k + 2].Item? then None
      else
        var more := ParseMembers(false, ts[k + 3..]);
        if more.None? then None else Some([Pair(ts[k].json.s, ts[k + 2].json)] + more.value)
  }

  /** The members of the object at the front of `ts`, if there is one. */
  function Parse(ts: seq<Lexeme>): Option<seq<Pair<Json>>> {
    if ts != [] && ts[0].LBrace? then ParseMembers(true, ts[1..]) else None
  }

  lemma {:induction false} ParsesMembers(first: bool, ps: seq<Pair<Json>>, rest: seq<Lexeme>)
    ensures ParseMembers(first, Members(first, ps) + rest) == Some(ps)
  {
    var ts := Members(first, ps) + rest;
    if ps != [] {
      var k := if first then 0 else 1;
      assert ts[k] == Item(JString(ps[0].key)) && ts[k + 1] == Colon && ts[k + 2] == Item(ps[0].value);
      assert ts[k + 3..] == Members(false, ps[1..]) + rest;
      assert ps == [ps[0]] + ps[1..];
      ParsesMembers(false, ps[1..], rest);
    }
  }

  lemma {:induction false} ParsedAreMembers(first: bool, ts: seq<Lexeme>) returns (rest: seq<Lexeme>)
    requires ParseMembers(first, ts).Some?
    ensures ts == Members(first, ParseMembers(first, ts).value) + rest
    decreases |ts|
  {
    if ts[0].RBrace? {
      rest := ts[1..];
    } else {
      var k := if first then 0 else 1;
      rest := ParsedAreMembers(false, ts[k + 3..]);
      var more := ParseMembers(false, ts[k + 3..]).value;
      assert ParseMembers(first, ts).value[1..] == more;
      assert ts == ts[..k] + [ts[k], ts[k + 1], ts[k + 2]] + ts[k + 3..];
    }
  }

  /** Parsing succeeds exactly on what starts with an object, and returns its members. */
  lemma ParseIffObject(ts: seq<Lexeme>, ps: seq<Pair<Json>>)
    ensures Parse(ts) == Some(ps) <==> exists rest :: ts == Object(ps) + rest
  {
    if Parse(ts) == Some(ps) {
      var rest := ParsedAreMembers(true, ts[1..]);
      assert ts == Object(ps) + rest;
    }
    if rest :| ts == Object(ps) + rest {
      assert ts[1..] == Members(true, ps) + rest;
      ParsesMembers(true, ps, rest);
    }
  }

  // ---- duplicate keys ----

  /** The index of the first pair with this key, or the length. */
  function First<T>(ps: seq<Pair<T>>, key: string): nat {
    if ps == [] || ps[0].key == key then 0 else 1 + First(ps[1..], key)
  }

  ghost predicate Distinct<T>(ps: seq<Pair<T>>) {
    forall i, j :: 0 <= i < j < |ps| ==> ps[i].key != ps[j].key
  }

  /** Add a pair at the end, or in the place of the pair that has its key. */
  function Put<T>(ps: seq<Pair<T>>, p: Pair<T>): seq<Pair<T>> {
    var i := First(ps, p.key);
    FirstIsFirst(ps, p.key);
    if i < |ps| then ps[i := p] else ps + [p]
  }

  /** What a reader makes of a list of members. */
  function Collapse<T>(ps: seq<Pair<T>>): seq<Pair<T>> {
    if ps == [] then [] else Put(Collapse(ps[..|ps| - 1]), ps[|ps| - 1])
  }

  lemma {:induction false} FirstIsFirst<T>(ps: seq<Pair<T>>, key: string)
    ensures First(ps, key) <= |ps|
    ensures First(ps, key) < |ps| ==> ps[First(ps, key)].key == key
    ensures forall h :: 0 <= h < First(ps, key) ==> ps[h].key != key
  {
    if ps != [] && ps[0].key != key {
      FirstIsFirst(ps[1..], key);
      assert forall h :: 1 <= h < First(ps, key) ==> ps[h] == ps[1..][h - 1];
    }
  }

  /** `r` holds each key of `ps` once, in the order of first appearance, with its last value. */
  ghost predicate Collapsed<T>(ps: seq<Pair<T>>, r: seq<Pair<T>>) {
    && (forall i :: 0 <= i < |ps| ==> First(r, ps[i].key) < |r|)
    && (forall a :: 0 <= a < |r| ==> IsLast(ps, r[a]))
    && (forall a, b :: 0 <= a < b < |r| ==> First(ps, r[a].key) < First(ps, r[b].key))
  }

  /** `p` is the last pair of `ps` with its key. */
  ghost predicate IsLast<T>(ps: seq<Pair<T>>, p: Pair<T>) {
    exists i :: 0 <= i < |ps| && ps[i] == p && forall h :: i < h < |ps| ==> ps[h].key != p.key
  }

  lemma {:induction false} FirstUnique<T>(ps: seq<Pair<T>>, key: string, i: nat)
    requires i <= |ps| && (i < |ps| ==> ps[i].key == key) && forall h :: 0 <= h < i ==> ps[h].key != key
    ensures First(ps, key) == i
  {
    FirstIsFirst(ps, key);
  }

  lemma FirstOfLonger<T>(ps: seq<Pair<T>>, p: Pair<T>, key: string)
    ensures First(ps + [p], key) ==
      if First(ps, key) < |ps| then First(ps, key) else if p.key == key then |ps| else |ps| + 1
  {
    FirstIsFirst(ps, key);
    var i := if First(ps, key) < |ps| then First(ps, key) else if p.key == key then |ps| else |ps| + 1;
    FirstUnique(ps + [p], key, i);
  }

  lemma LastOfLonger<T>(ps: seq<Pair<T>>, p: Pair<T>, q: Pair<T>)
    requires IsLast(ps, q) && p.key != q.key
    ensures IsLast(ps + [p], q)
  {
    var i :| 0 <= i < |ps| && ps[i] == q && forall h :: i < h < |ps| ==> ps[h].key != q.key;
    assert (ps + [p])[i] == q;
  }

  /** In a collapsed list the first pair with a key is the only one. */
  lemma CollapsedFirst<T>(ps: seq<Pair<T>>, r: seq<Pair<T>>, a: nat)
    requires Collapsed(ps, r) && a < |r|
    ensures First(r, r[a].key) == a
  {
    FirstUnique(r, r[a].key, a);
  }

  lemma PutKeepsCollapsed<T>(ps: seq<Pair<T>>, r: seq<Pair<T>>, p: Pair<T>)
    requires Collapsed(ps, r)
    ensures Collapsed(ps + [p], Put(r, p))
  {
    var at, t := First(r, p.key), Put(r, p);
    FirstIsFirst(r, p.key);
    var longer := ps + [p];
    forall i | 0 <= i < |longer| ensures First(t, longer[i].key) < |t| {
      FirstIsFirst(r, longer[i].key);
      FirstIsFirst(t, longer[i].key);
      if i < |ps| {
        assert First(r, ps[i].key) < |r|;
        assert t[First(r, ps[i].key)].key == ps[i].key;
      } else {
        assert t[at].key == p.key;
      }
    }
    forall a | 0 <= a < |t| ensures IsLast(longer, t[a]) {
      if a == at {
        assert longer[|ps|] == p;
      } else {
        assert t[a] == r[a];
        CollapsedFirst(ps, r, a);
        LastOfLonger(ps, p, r[a]);
      }
    }
    forall a, b | 0 <= a < b < |t| ensures First(longer, t[a].key) < First(longer, t[b].key) {
      KeyIndex(ps, r, p, a);
      KeyIndex(ps, r, p, b);
    }
  }

  /** Where the keys of the list with `p` first appear. */
  lemma KeyIndex<T>(ps: seq<Pair<T>>, r: seq<Pair<T>>, p: Pair<T>, a: nat)
    requires Collapsed(ps, r) && a < |Put(r, p)|
    ensures a < |r| ==> First(ps + [p], Put(r, p)[a].key) == First(ps, r[a].key) < |ps|
    ensures a == |r| ==> First(ps + [p], Put(r, p)[a].key) == |ps|
  {
    FirstIsFirst(r, p.key);
    FirstOfLonger(ps, p, Put(r, p)[a].key);
    FirstIsFirst(ps, Put(r, p)[a].key);
    if a < |r| {
      assert Put(r, p)[a].key == r[a].key && IsLast(ps, r[a]);
    } else if First(ps, p.key) < |ps| {
      assert First(r, ps[First(ps, p.key)].key) < |r|;
    }
  }

  /** A reader keeps each key once, in the order of first appearance, with its last value. */
  lemma {:induction false} CollapseIsCollapsed<T>(ps: seq<Pair<T>>)
    ensures Collapsed(ps, Collapse(ps))
  {
    if ps != [] {
      var n := |ps| - 1;
      CollapseIsCollapsed(ps[..n]);
      PutKeepsCollapsed(ps[..n], Collapse(ps[..n]), ps[n]);
      assert ps[..n] + [ps[n]] == ps;
    }
  }

  lemma CollapsedIsDistinct<T>(ps: seq<Pair<T>>, r: seq<Pair<T>>)
    requires Collapsed(ps, r)
    ensures Distinct(r)
  {}

  lemma {:induction false} CollapseDistinct<T>(ps: seq<Pair<T>>)
    requires Distinct(ps)
    ensures Collapse(ps) == ps
  {
    if ps != [] {
      var n := |ps| - 1;
      CollapseDistinct(ps[..n]);
      FirstIsFirst(ps[..n], ps[n].key);
    }
  }

  // ---- reading and writing ----

  /** How values are represented: a decoder that may fail, and an encoder it undoes. */
  datatype Codec<!T> = Codec(decode: Json -> Option<T>, encode: T -> Json)

  ghost predicate Inverse<T(!new)>(codec: Codec<T>) {
    forall v :: codec.decode(codec.encode(v)) == Some(v)
  }

  /** The members with their values decoded, if all of them can be. */
  function DecodeAll<T>(codec: Codec<T>, ps: seq<Pair<Json>>): Option<seq<Pair<T>>> {
    if ps == [] then Some([])
    else
      var n := |ps| - 1;
      var before, v := DecodeAll(codec, ps[..n]), codec.decode(ps[n].value);
      if before.None? || v.None? then None else Some(before.value + [Pair(ps[n].key, v.value)])
  }

  function EncodeAll<T>(codec: Codec<T>, xs: seq<Pair<T>>): seq<Pair<Json>> {
    seq(|xs|, i requires 0 <= i < |xs| => Pair(xs[i].key, codec.encode(xs[i].value)))
  }

  /** The pairs that a reader gets from the front of `ts`. */
  function Read<T>(codec: Codec<T>, ts: seq<Lexeme>): Option<seq<Pair<T>>> {
    if Parse(ts).None? || DecodeAll(codec, Parse(ts).value).None? then None
    else Some(Collapse(DecodeAll(codec, Parse(ts).value).value))
  }

  function Write<T>(codec: Codec<T>, xs: seq<Pair<T>>): seq<Lexeme> {
    Object(EncodeAll(codec, xs))
  }

  lemma {:induction false} DecodeEncoded<T(!new)>(codec: Codec<T>, xs: seq<Pair<T>>)
    requires Inverse(codec)
    ensures DecodeAll(codec, EncodeAll(codec, xs)) == Some(xs)
  {
    if xs != [] {
      var n := |xs| - 1;
      DecodeEncoded(codec, xs[..n]);
      assert EncodeAll(codec, xs)[..n] == EncodeAll(codec, xs[..n]);
      assert EncodeAll(codec, xs)[n] == Pair(xs[n].key, codec.encode(xs[n].value));
      assert codec.decode(codec.encode(xs[n].value)) == Some(xs[n].value);
      assert xs[..n] + [xs[n]] == xs;
    }
  }

  lemma ReadWritten<T(!new)>(codec: Codec<T>, xs: seq<Pair<T>>)
    requires Inverse(codec)
    ensures Read(codec, Write(codec, xs)) == Some(Collapse(xs))
  {
    DecodeEncoded(codec, xs);
    var ps := EncodeAll(codec, xs);
    assert Write(codec, xs) == Object(ps) + [];
    ParseIffObject(Write(codec, xs), ps);
  }

  /** Reading back what was written returns it exactly when its keys are distinct. */
  lemma RoundTrip<T(!new)>(codec: Codec<T>, xs: seq<Pair<T>>)
    requires Inverse(codec)
    ensures Read(codec, Write(codec, xs)) == Some(xs) <==> Distinct(xs)
  {
    ReadWritten(codec, xs);
    if Distinct(xs) {
      CollapseDistinct(xs);
    } else {
      CollapseIsCollapsed(xs);
      CollapsedIsDistinct(xs, Collapse(xs));
    }
  }

  /** What was read once reads the same ever after. */
  lemma ReadIsStable<T(!new)>(codec: Codec<T>, ts: seq<Lexeme>)
    requires Inverse(codec) && Read(codec, ts).Some?
    ensures Read(codec, Write(codec, Read(codec, ts).value)) == Read(codec, ts)
  {
    var ps := DecodeAll(codec, Parse(ts).value).value;
    CollapseIsCollapsed(ps);
    CollapsedIsDistinct(ps, Collapse(ps));
    RoundTrip(codec, Collapse(ps));
  }

  // ---- the code ----

  /** The cursor stands before a member or the end of the object, after the members `ps`. */
  ghost predicate Before(ts: seq<Lexeme>, c: Cursor, ps: seq<Pair<Json>>) {
    && (c.position.ObjectStart? || c.position.ObjectComma?)
    && var more := ParseMembers(c.position.ObjectStart?, c.rest);
      Parse(ts) == if more.None? then None else Some(ps + more.value)
  }

  /** The token before a member is its key, and its value follows; or it closes the object; or there is no object. */
  lemma MemberStep(ts: seq<Lexeme>, c: Cursor, ps: seq<Pair<Json>>)
    requires Before(ts, c, ps)
    ensures Next(c).None? ==> Parse(ts).None?
    ensures Next(c).Some? ==> Next(c).value.0.Close? || Next(c).value.0.Word?
    ensures Next(c).Some? && Next(c).value.0.Close? ==> Parse(ts) == Some(ps)
    ensures Next(c).Some? && Next(c).value.0.Word? ==>
      var v := Value(Next(c).value.1);
      && (v.None? ==> Parse(ts).None?)
      && (v.Some? ==> Before(ts, v.value.1, ps + [Pair(Next(c).value.0.s, v.value.0)]))
      && (v.Some? ==> |v.value.1.rest| < |c.rest|)
  {
    var k := if c.position.ObjectStart? then 0 else 1;
    assert ps + [] == ps;
    if Next(c).Some? && Next(c).value.0.Word? {
      assert Next(c).value.1 == Cursor(ObjectColon, c.rest[k + 1..]);
      var v := Value(Next(c).value.1);
      if v.Some? {
        assert c.rest[k + 1..][2..] == c.rest[k + 3..];
        var more := ParseMembers(false, c.rest[k + 3..]);
        var p := Pair(Next(c).value.0.s, v.value.0);
        if more.Some? {
          assert ps + ([p] + more.value) == ps + [p] + more.value;
        }
      }
    }
  }

  lemma {:induction false} DecodeLonger<T>(codec: Codec<T>, a: seq<Pair<Json>>, b: seq<Pair<Json>>)
    requires DecodeAll(codec, a).None?
    ensures DecodeAll(codec, a + b).None?
  {
    if b == [] {
      assert a + b == a;
    } else {
      DecodeLonger(codec, a, b[..|b| - 1]);
      assert (a + b)[..|a + b| - 1] == a + b[..|b| - 1];
    }
  }

  /** The index map of the reader: where each key it has appended is. */
  ghost predicate Indexed<T>(indexes: map<string, nat>, offset: nat, r: seq<Pair<T>>) {
    forall key :: (key in indexes <==> First(r, key) < |r|) && (key in indexes ==> indexes[key] == offset + First(r, key))
  }

  lemma PutKeepsIndexed<T>(indexes: map<string, nat>, offset: nat, r: seq<Pair<T>>, p: Pair<T>)
    requires Indexed(indexes, offset, r)
    ensures p.key in indexes ==> Indexed(indexes, offset, Put(r, p))
    ensures p.key !in indexes ==> Indexed(indexes[p.key := offset + |r|], offset, Put(r, p))
  {
    FirstIsFirst(r, p.key);
    forall key ensures First(Put(r, p), key) == if key == p.key then First(r, key) else if First(r, key) < |r| then First(r, key) else |Put(r, p)| {
      FirstIsFirst(r, key);
      var i := if key == p.key then First(r, key) else if First(r, key) < |r| then First(r, key) else |Put(r, p)|;
      FirstUnique(Put(r, p), key, i);
    }
  }

  /**
   UnmarshalJSON: appends what it reads to the list it is given; on any error the
   list stays as it was.
   */
  method UnmarshalJSON<T>(codec: Codec<T>, ts: seq<Lexeme>, list: seq<Pair<T>>) returns (ok: bool, out: seq<Pair<T>>)
    ensures ok <==> Read(codec, ts).Some?
    ensures out == if ok then list + Read(codec, ts).value else list
  {
    hide Before, Parse, DecodeAll, Collapse, Indexed, Read, Next, Value;
    out := list;
    var tok := Next(Cursor(TopValue, ts));
    Opening(codec, ts, |list|);
    if tok.None? || !tok.value.0.Open? {
      return false, list;
    }
    var c := tok.value.1;
    var indexes: map<string, nat> := map[];
    ghost var ps, xs := [], [];
    while true
      invariant Before(ts, c, ps) && DecodeAll(codec, ps) == Some(xs)
      invariant out == list + Collapse(xs) && Indexed(indexes, |list|, Collapse(xs))
      decreases |c.rest|
    {
      MemberStep(ts, c, ps);
      tok := Next(c);
      if tok.None? {
        NoObject(codec, ts);
        return false, list;
      }
      if tok.value.0.Close? {
        Closing(codec, ts, ps);
        return true, out;
      }
      var v := Value(tok.value.1);
      if v.None? {
        NoObject(codec, ts);
        return false, list;
      }
      var value := codec.decode(v.value.0);
      ghost var p := Pair(tok.value.0.s, v.value.0);
      DecodeMore(codec, ps, p);
      if value.None? {
        Undecodable(codec, ts, v.value.1, ps + [p]);
        return false, list;
      }
      var kv := Pair(tok.value.0.s, value.value);
      indexes, out := Insert(indexes, list, Collapse(xs), out, kv);
      CollapseMore(xs, kv);
      ps, xs, c := ps + [p], xs + [kv], v.value.1;
    }
  }

  /** One pair goes to the place of its key, or to the end. */
  method Insert<T>(indexes: map<string, nat>, ghost list: seq<Pair<T>>, ghost r: seq<Pair<T>>, xs: seq<Pair<T>>, kv: Pair<T>)
    returns (indexes': map<string, nat>, xs': seq<Pair<T>>)
    requires Indexed(indexes, |list|, r) && xs == list + r
    ensures Indexed(indexes', |list|, Put(r, kv)) && xs' == list + Put(r, kv)
  {
    PutKeepsIndexed(indexes, |list|, r, kv);
    FirstIsFirst(r, kv.key);
    if kv.key in indexes {
      indexes', xs' := indexes, xs[indexes[kv.key] := kv];
    } else {
      indexes', xs' := indexes[kv.key := |xs|], xs + [kv];
    }
  }

  lemma Opening<T>(codec: Codec<T>, ts: seq<Lexeme>, offset: nat)
    ensures var tok := Next(Cursor(TopValue, ts));
      if tok.None? || !tok.value.0.Open? then Read(codec, ts).None? else Before(ts, tok.value.1, [])
    ensures DecodeAll(codec, []) == Some([]) && Collapse<T>([]) == [] && Indexed<T>(map[], offset, [])
  {
    if ts != [] && ts[0].LBrace? {
      var more := ParseMembers(true, ts[1..]);
      assert more.Some? ==> [] + more.value == more.value;
    }
  }

  lemma NoObject<T>(codec: Codec<T>, ts: seq<Lexeme>)
    requires Parse(ts).None?
    ensures Read(codec, ts).None?
  {}

  lemma Closing<T>(codec: Codec<T>, ts: seq<Lexeme>, ps: seq<Pair<Json>>)
    requires Parse(ts) == Some(ps) && DecodeAll(codec, ps).Some?
    ensures Read(codec, ts) == Some(Collapse(DecodeAll(codec, ps).value))
  {}

  lemma DecodeMore<T>(codec: Codec<T>, ps: seq<Pair<Json>>, p: Pair<Json>)
    requires DecodeAll(codec, ps).Some?
    ensures DecodeAll(codec, ps + [p]) ==
      var v := codec.decode(p.value);
      if v.None? then None else Some(DecodeAll(codec, ps).value + [Pair(p.key, v.value)])
  {
    assert (ps + [p])[..|ps|] == ps;
  }

  lemma CollapseMore<T>(ps: seq<Pair<T>>, p: Pair<T>)
    ensures Collapse(ps + [p]) == Put(Collapse(ps), p)
  {
    assert (ps + [p])[..|ps|] == ps;
  }

  lemma Undecodable<T>(codec: Codec<T>, ts: seq<Lexeme>, c: Cursor, ps: seq<Pair<Json>>)
    requires Before(ts, c, ps) && DecodeAll(codec, ps).None?
    ensures Read(codec, ts).None?
  {
    var more := ParseMembers(c.position.ObjectStart?, c.rest);
    if more.Some? {
      DecodeLonger(codec, ps, more.value);
    }
  }

  /** MarshalJSON; `None` is the nil interface. */
  method MarshalJSON<T>(codec: Codec<T>, list: Option<seq<Pair<T>>>) returns (out: seq<Lexeme>)
    ensures out == if list.None? then [Item(JSON_NULL)] else Write(codec, list.value)
  {
    hide Body;
    if list.None? {
      return [Item(JSON_NULL)];
    }
    EmptyBody();
    var xs := list.value;
    ghost var ps := EncodeAll(codec, xs);
    out := [LBrace];
    for i := 0 to |xs|
      invariant out == [LBrace] + Body(true, ps[..i]) + (if 0 < i < |xs| then [Comma] else [])
    {
      out := out + [Item(JString(xs[i].key))];
      out := out + [Colon];
      out := out + [Item(codec.encode(xs[i].value))];
      if i < |xs| - 1 {
        out := out + [Comma];
      }
      BodyAppend(true, ps[..i], ps[i]);
      assert ps[..i] + [ps[i]] == ps[..i + 1];
    }
    assert ps[..|xs|] == ps;
    out := out + [RBrace];
  }

  lemma EmptyBody()
    ensures Body(true, []) == []
  {}

  lemma {:induction false} BodyAppend(first: bool, ps: seq<Pair<Json>>, p: Pair<Json>)
    ensures Body(first, ps + [p]) ==
      Body(first, ps) + (if first && ps == [] then [] else [Comma]) + [Item(JString(p.key)), Colon, Item(p.value)]
  {
    if ps == [] {
      assert ps + [p] == [p];
      assert [p][1..] == [];
    } else {
      assert (ps + [p])[1..] == ps[1..] + [p];
      BodyAppend(false, ps[1..], p);
    }
  }
}
