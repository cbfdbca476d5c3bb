/**
 The validator of immutable fields: a walk over two values of the same Go type that
 skips struct fields tagged `mutable:"true"`, compares strings without case under
 fields tagged `mutable:"case"`, and reports the first difference.

 Values are what reflection sees: each carries the identifier of its type, and an
 environment says what each type is, so recursive types are included.  Map entries
 come in the order of the iteration.
 */
module Immutable {
  import opened Wrappers

  type TypeId = nat

  datatype Tag = Immutable | IgnoreCase | Mutable

  /** A struct field: the name shown in paths (from the json tag, or the Go name), and the Go name. */
  datatype Field = Field(name: string, goName: string, tag: Tag, typ: TypeId)

  datatype TypeInfo =
    | ScalarType
    | StringType
    | SliceType(elem: TypeId)
    | ArrayType(length: nat, elem: TypeId)
    | PointerType(elem: TypeId)
    | InterfaceType
    | MapType(elem: TypeId)
    | StructType(fields: seq<Field>)
    | OtherType                            // chan, func, unsafe pointer

  /** The types of the program, and the representative of each class of letters that differ in case only. */
  datatype Env = Env(types: TypeId -> TypeInfo, fold: char -> char)

  datatype Value =
    | Scalar(typ: TypeId, number: int, nan: bool)
    | Text(typ: TypeId, text: string)
    | List(typ: TypeId, isNil: bool, items: seq<Value>)       // slice or array
    | Ref(typ: TypeId, target: Option<Value>)                 // pointer or interface
    | Dict(typ: TypeId, isNil: bool, entries: seq<Entry>)
    | Record(typ: TypeId, fields: seq<Value>)
    | Other(typ: TypeId)

  datatype Entry = Entry(key: MapKey, value: Value)

  /** A key of a map: any comparable Go value but a NaN. */
  datatype MapKey =
    | TextKey(text: string)
    | NumberKey(number: int)                      // also booleans, pointers and channels
    | TupleKey(parts: seq<MapKey>)                // struct or array
    | DynamicKey(typ: TypeId, key: MapKey)        // interface
    | NilKey

  ghost predicate DistinctKeys(entries: seq<Entry>) {
    forall i, j :: 0 <= i < j < |entries| ==> entries[i].key != entries[j].key
  }

  /** `v` is a value of its type. */
  ghost predicate Typed(env: Env, v: Value) {
    match v
    case Scalar(t, _, _) => env.types(t).ScalarType?
    case Text(t, _) => env.types(t).StringType?
    case List(t, isNil, items) =>
      && (env.types(t).SliceType? || (env.types(t).ArrayType? && !isNil && |items| == env.types(t).length))
      && (isNil ==> items == [])
      && forall i :: 0 <= i < |items| ==> items[i].typ == env.types(t).elem && Typed(env, items[i])
    case Ref(t, target) =>
      && (env.types(t).InterfaceType? || env.types(t).PointerType?)
      && (target.Some? ==>
            && Typed(env, target.value)
            && (env.types(t).PointerType? ==> target.value.typ == env.types(t).elem))
    case Dict(t, isNil, entries) =>
      && env.types(t).MapType?
      && (isNil ==> entries == [])
      && DistinctKeys(entries)
      && forall i :: 0 <= i < |entries| ==> entries[i].value.typ == env.types(t).elem && Typed(env, entries[i].value)
    case Record(t, fields) =>
      && env.types(t).StructType?
      && |fields| == |env.types(t).fields|
      && forall i :: 0 <= i < |fields| ==> fields[i].typ == env.types(t).fields[i].typ && Typed(env, fields[i])
    case Other(t) => env.types(t).OtherType?
  }

  // ---- the validator ----

  datatype Step = Member(name: string) | Index(i: nat) | Named(name: string) | Key(key: MapKey)

  type Path = seq<Step>

  /** `Changed` names the first difference; a key of the first map that the second lacks makes reflection panic. */
  datatype Outcome = Accepted | Changed(path: Path) | Unimplemented | Panics

  predicate EqualFold(env: Env, s: string, t: string) {
    |s| == |t| && forall i :: 0 <= i < |s| ==> env.fold(s[i]) == env.fold(t[i])
  }

  /** The first string field called Name of a struct names a list element. */
  function NameOf(env: Env, v: Value, fields: seq<Field>): Option<string>
    requires v.Record? && |fields| <= |v.fields|
  {
    if fields == [] then None
    else
      var n := |fields| - 1;
      var earlier := NameOf(env, v, fields[..n]);
      if earlier.Some? then earlier
      else if fields[n].goName == "Name" && v.fields[n].Text? then Some(v.fields[n].text)
      else None
  }

  function IndexStep(env: Env, i: nat, item: Value): Step
    requires Typed(env, item)
  {
    if item.Record? && NameOf(env, item, env.types(item.typ).fields).Some?
    then Named(NameOf(env, item, env.types(item.typ).fields).value)
    else Index(i)
  }

  function Find(entries: seq<Entry>, key: MapKey): (r: Option<Value>)
    ensures r.Some? ==> exists i :: 0 <= i < |entries| && entries[i] == Entry(key, r.value)
    ensures r.None? ==> forall i :: 0 <= i < |entries| ==> entries[i].key != key
  {
    if entries == [] then None
    else if entries[0].key == key then Some(entries[0].value)
    else Find(entries[1..], key)
  }

  function Validate(env: Env, path: Path, v: Value, w: Value, ignoreCase: bool): Outcome
    requires Typed(env, v) && Typed(env, w)
    decreases v, 1, 0
  {
    if v.typ != w.typ then Changed(path)
    else
      match v
      case Scalar(_, number, nan) => if nan || w.nan || number != w.number then Changed(path) else Accepted
      case Text(_, text) =>
        if (if ignoreCase then EqualFold(env, text, w.text) else text == w.text) then Accepted else Changed(path)
      case List(_, isNil, items) =>
        if isNil != w.isNil || |items| != |w.items| then Changed(path)
        else ValidateItems(env, path, v, w, 0, ignoreCase)
      case Ref(_, target) =>
        if target.Some? != w.target.Some? then Changed(path)
        else if target.None? then Accepted
        else Validate(env, path, target.value, w.target.value, ignoreCase)
      case Dict(_, isNil, entries) =>
        if isNil != w.isNil || |entries| != |w.entries| then Changed(path)
        else ValidateEntries(env, path, v, w, 0, ignoreCase)
      case Record(_, _) => ValidateFields(env, path, v, w, 0, ignoreCase)
      case Other(_) => Unimplemented
  }

  function ValidateItems(env: Env, path: Path, v: Value, w: Value, i: nat, ignoreCase: bool): Outcome
    requires Typed(env, v) && Typed(env, w) && v.List? && w.List? && i <= |v.items| == |w.items|
    decreases v, 0, |v.items| - i
  {
    if i == |v.items| then Accepted
    else
      var r := Validate(env, path + [IndexStep(env, i, v.items[i])], v.items[i], w.items[i], ignoreCase);
      if r.Accepted? then ValidateItems(env, path, v, w, i + 1, ignoreCase) else r
  }

  function ValidateEntries(env: Env, path: Path, v: Value, w: Value, i: nat, ignoreCase: bool): Outcome
    requires Typed(env, v) && Typed(env, w) && v.Dict? && w.Dict? && i <= |v.entries|
    decreases v, 0, |v.entries| - i
  {
    if i == |v.entries| then Accepted
    else
      var e := v.entries[i];
      var other := Find(w.entries, e.key);
      if other.None? then Panics
      else
        var r := Validate(env, path + [Key(e.key)], e.value, other.value, ignoreCase);
        if r.Accepted? then ValidateEntries(env, path, v, w, i + 1, ignoreCase) else r
  }

  function ValidateFields(env: Env, path: Path, v: Value, w: Value, i: nat, ignoreCase: bool): Outcome
    requires Typed(env, v) && Typed(env, w) && v.Record? && w.Record? && v.typ == w.typ && i <= |v.fields|
    decreases v, 0, |v.fields| - i
  {
    if i == |v.fields| then Accepted
    else
      var f := env.types(v.typ).fields[i];
      if f.tag.Mutable? then ValidateFields(env, path, v, w, i + 1, ignoreCase)
      else
        var r := Validate(env, path + [Member(f.name)], v.fields[i], w.fields[i], ignoreCase || f.tag.IgnoreCase?);
        if r.Accepted? then ValidateFields(env, path, v, w, i + 1, ignoreCase) else r
  }

  // ---- what a caller may not change ----

  /** A value without its mutable fields and with the case folded where case is ignored. */
  datatype Mask =
    | MScalar(typ: TypeId, number: int, nan: bool)
    | MText(typ: TypeId, text: string)
    | MList(typ: TypeId, isNil: bool, items: seq<Mask>)
    | MRef(typ: TypeId, target: Option<Mask>)
    | MDict(typ: TypeId, isNil: bool, entries: map<MapKey, Mask>)
    | MRecord(typ: TypeId, fields: seq<Option<Mask>>)
    | MOther(typ: TypeId)

  function Folded(env: Env, s: string): string {
    seq(|s|, i requires 0 <= i < |s| => env.fold(s[i]))
  }

  function MaskOf(env: Env, v: Value, ignoreCase: bool): Mask
    requires Typed(env, v)
    decreases v, 1, 0
  {
    match v
    case Scalar(t, number, nan) => MScalar(t, number, nan)
    case Text(t, text) => MText(t, if ignoreCase then Folded(env, text) else text)
    case List(t, isNil, items) =>
      MList(t, isNil, seq(|items|, i requires 0 <= i < |items| => MaskOf(env, items[i], ignoreCase)))
    case Ref(t, target) => MRef(t, if target.None? then None else Some(MaskOf(env, target.value, ignoreCase)))
    case Dict(t, isNil, entries) =>
      MDict(t, isNil, EntryMasks(env, v, |entries|, ignoreCase))
    case Record(t, fields) =>
      var infos := env.types(t).fields;
      MRecord(t, seq(|fields|, i requires 0 <= i < |fields| =>
        if infos[i].tag.Mutable? then None
        else Some(MaskOf(env, fields[i], ignoreCase || infos[i].tag.IgnoreCase?))))
    case Other(t) => MOther(t)
  }

  function EntryMasks(env: Env, v: Value, n: nat, ignoreCase: bool): map<MapKey, Mask>
    requires Typed(env, v) && v.Dict? && n <= |v.entries|
    decreases v, 0, n
  {
    if n == 0 then map[]
    else EntryMasks(env, v, n - 1, ignoreCase)[v.entries[n - 1].key := MaskOf(env, v.entries[n - 1].value, ignoreCase)]
  }

  /** No value that equals nothing, and none of a kind the validator does not know, outside mutable fields. */
  ghost predicate Comparable(env: Env, v: Value)
    requires Typed(env, v)
  {
    match v
    case Scalar(_, _, nan) => !nan
    case Text(_, _) => true
    case List(_, _, items) => forall i :: 0 <= i < |items| ==> Comparable(env, items[i])
    case Ref(_, target) => target.Some? ==> Comparable(env, target.value)
    case Dict(_, _, entries) => forall i :: 0 <= i < |entries| ==> Comparable(env, entries[i].value)
    case Record(t, fields) =>
      forall i :: 0 <= i < |fields| ==> env.types(t).fields[i].tag.Mutable? || Comparable(env, fields[i])
    case Other(_) => false
  }

  /** Same type, acceptable, and nothing unchangeable changed. */
  ghost predicate Same(env: Env, v: Value, w: Value, ignoreCase: bool)
    requires Typed(env, v) && Typed(env, w)
  {
    Comparable(env, v) && MaskOf(env, v, ignoreCase) == MaskOf(env, w, ignoreCase)
  }

  lemma FoldedEqual(env: Env, s: string, t: string)
    ensures EqualFold(env, s, t) <==> Folded(env, s) == Folded(env, t)
  {
    if Folded(env, s) == Folded(env, t) {
      assert forall i :: 0 <= i < |s| ==> Folded(env, s)[i] == env.fold(s[i]) && Folded(env, t)[i] == env.fold(t[i]);
    }
  }

  // ---- masks of composite values, child by child ----

  ghost predicate SameItem(env: Env, v: Value, w: Value, i: nat, ignoreCase: bool)
    requires Typed(env, v) && Typed(env, w) && v.List? && w.List? && i < |v.items| && i < |w.items|
  {
    Same(env, v.items[i], w.items[i], ignoreCase)
  }

  lemma SameList(env: Env, v: Value, w: Value, ignoreCase: bool)
    requires Typed(env, v) && Typed(env, w) && v.List? && w.List? && v.typ == w.typ
    ensures Same(env, v, w, ignoreCase) <==>
      && v.isNil == w.isNil && |v.items| == |w.items|
      && forall i :: 0 <= i < |v.items| ==> SameItem(env, v, w, i, ignoreCase)
  {
    var m, n := MaskOf(env, v, ignoreCase), MaskOf(env, w, ignoreCase);
    assert |m.items| == |v.items| && |n.items| == |w.items|;
    assert forall i :: 0 <= i < |v.items| ==> m.items[i] == MaskOf(env, v.items[i], ignoreCase);
    assert forall i :: 0 <= i < |w.items| ==> n.items[i] == MaskOf(env, w.items[i], ignoreCase);
    if Same(env, v, w, ignoreCase) {
      forall i | 0 <= i < |v.items| ensures SameItem(env, v, w, i, ignoreCase) {
        assert m.items[i] == n.items[i];
      }
    }
    if v.isNil == w.isNil && |v.items| == |w.items| && forall i :: 0 <= i < |v.items| ==> SameItem(env, v, w, i, ignoreCase) {
      forall i | 0 <= i < |v.items| ensures m.items[i] == n.items[i] && Comparable(env, v.items[i]) {
        assert SameItem(env, v, w, i, ignoreCase);
      }
      assert m.items == n.items;
    }
  }

  ghost predicate SameField(env: Env, v: Value, w: Value, i: nat, ignoreCase: bool)
    requires Typed(env, v) && Typed(env, w) && v.Record? && w.Record? && v.typ == w.typ && i < |v.fields|
  {
    var tag := env.types(v.typ).fields[i].tag;
    tag.Mutable? || Same(env, v.fields[i], w.fields[i], ignoreCase || tag.IgnoreCase?)
  }

  function FieldMask(env: Env, v: Value, i: nat, ignoreCase: bool): Option<Mask>
    requires Typed(env, v) && v.Record? && i < |v.fields|
  {
    var tag := env.types(v.typ).fields[i].tag;
    if tag.Mutable? then None else Some(MaskOf(env, v.fields[i], ignoreCase || tag.IgnoreCase?))
  }

  lemma SameRecord(env: Env, v: Value, w: Value, ignoreCase: bool)
    requires Typed(env, v) && Typed(env, w) && v.Record? && w.Record? && v.typ == w.typ
    ensures Same(env, v, w, ignoreCase) <==> forall i :: 0 <= i < |v.fields| ==> SameField(env, v, w, i, ignoreCase)
  {
    var m, n := MaskOf(env, v, ignoreCase), MaskOf(env, w, ignoreCase);
    assert |m.fields| == |v.fields| == |n.fields|;
    assert forall i :: 0 <= i < |v.fields| ==> m.fields[i] == FieldMask(env, v, i, ignoreCase);
    assert forall i :: 0 <= i < |w.fields| ==> n.fields[i] == FieldMask(env, w, i, ignoreCase);
    if m == n {
      forall i | 0 <= i < |v.fields| ensures Comparable(env, v) ==> SameField(env, v, w, i, ignoreCase) {
        assert m.fields[i] == n.fields[i];
      }
    }
    if forall i :: 0 <= i < |v.fields| ==> SameField(env, v, w, i, ignoreCase) {
      forall i | 0 <= i < |v.fields| ensures m.fields[i] == n.fields[i] {
        assert SameField(env, v, w, i, ignoreCase);
      }
      forall i | 0 <= i < |v.fields| ensures env.types(v.typ).fields[i].tag.Mutable? || Comparable(env, v.fields[i]) {
        assert SameField(env, v, w, i, ignoreCase);
      }
      assert m.fields == n.fields;
    }
  }

  ghost predicate SameEntry(env: Env, v: Value, w: Value, i: nat, ignoreCase: bool)
    requires Typed(env, v) && Typed(env, w) && v.Dict? && w.Dict? && i < |v.entries|
  {
    var other := Find(w.entries, v.entries[i].key);
    other.Some? && Same(env, v.entries[i].value, other.value, ignoreCase)
  }

  function Keys(entries: seq<Entry>): set<MapKey> {
    set i | 0 <= i < |entries| :: entries[i].key
  }

  lemma {:induction false} KeysCount(entries: seq<Entry>)
    requires DistinctKeys(entries)
    ensures |Keys(entries)| == |entries|
  {
    if entries != [] {
      var n := |entries| - 1;
      KeysCount(entries[..n]);
      assert Keys(entries) == Keys(entries[..n]) + {entries[n].key};
    }
  }

  lemma SameMaps(entries: seq<Entry>, m: map<MapKey, Mask>, n: map<MapKey, Mask>)
    requires m.Keys == Keys(entries) && |m.Keys| == |n.Keys|
    requires forall i :: 0 <= i < |entries| ==> entries[i].key in n && m[entries[i].key] == n[entries[i].key]
    ensures m == n
  {
    assert m.Keys <= n.Keys;
    assert |n.Keys - m.Keys| == 0;
    assert m.Keys == n.Keys;
  }

  lemma {:induction false} DictKeys(env: Env, v: Value, n: nat, ignoreCase: bool)
    requires Typed(env, v) && v.Dict? && n <= |v.entries|
    ensures EntryMasks(env, v, n, ignoreCase).Keys == Keys(v.entries[..n])
  {
    hide MaskOf, Typed;
    if n > 0 {
      DictKeys(env, v, n - 1, ignoreCase);
      assert v.entries[..n] == v.entries[..n - 1] + [v.entries[n - 1]];
      assert Keys(v.entries[..n]) == Keys(v.entries[..n - 1]) + {v.entries[n - 1].key};
    }
  }

  lemma {:induction false} DictValue(env: Env, v: Value, n: nat, i: nat, ignoreCase: bool)
    requires Typed(env, v) && v.Dict? && i < n <= |v.entries|
    ensures v.entries[i].key in EntryMasks(env, v, n, ignoreCase)
    ensures EntryMasks(env, v, n, ignoreCase)[v.entries[i].key] == MaskOf(env, v.entries[i].value, ignoreCase)
  {
    hide MaskOf;
    if i < n - 1 {
      DictValue(env, v, n - 1, i, ignoreCase);
      assert v.entries[i].key != v.entries[n - 1].key;
    }
  }

  lemma DictMask(env: Env, v: Value, ignoreCase: bool)
    requires Typed(env, v) && v.Dict?
    ensures EntryMasks(env, v, |v.entries|, ignoreCase).Keys == Keys(v.entries)
    ensures |Keys(v.entries)| == |v.entries|
    ensures forall i :: 0 <= i < |v.entries| ==>
      && v.entries[i].key in EntryMasks(env, v, |v.entries|, ignoreCase)
      && EntryMasks(env, v, |v.entries|, ignoreCase)[v.entries[i].key] == MaskOf(env, v.entries[i].value, ignoreCase)
  {
    hide MaskOf, EntryMasks;
    DictKeys(env, v, |v.entries|, ignoreCase);
    assert v.entries[..|v.entries|] == v.entries;
    KeysCount(v.entries);
    forall i | 0 <= i < |v.entries|
      ensures v.entries[i].key in EntryMasks(env, v, |v.entries|, ignoreCase)
      ensures EntryMasks(env, v, |v.entries|, ignoreCase)[v.entries[i].key] == MaskOf(env, v.entries[i].value, ignoreCase)
    {
      DictValue(env, v, |v.entries|, i, ignoreCase);
    }
  }

  /** The masks of two maps, as a map comparison. */
  lemma DictMasks(env: Env, v: Value, w: Value, ignoreCase: bool)
    returns (m: map<MapKey, Mask>, n: map<MapKey, Mask>)
    requires Typed(env, v) && Typed(env, w) && v.Dict? && w.Dict? && v.typ == w.typ && v.isNil == w.isNil
    ensures MaskOf(env, v, ignoreCase) == MaskOf(env, w, ignoreCase) <==> m == n
    ensures m.Keys == Keys(v.entries) && n.Keys == Keys(w.entries)
    ensures |m.Keys| == |v.entries| && |n.Keys| == |w.entries|
    ensures forall i :: 0 <= i < |v.entries| ==> v.entries[i].key in m && m[v.entries[i].key] == MaskOf(env, v.entries[i].value, ignoreCase)
    ensures forall i :: 0 <= i < |w.entries| ==> w.entries[i].key in n && n[w.entries[i].key] == MaskOf(env, w.entries[i].value, ignoreCase)
  {
    m := EntryMasks(env, v, |v.entries|, ignoreCase);
    n := EntryMasks(env, w, |w.entries|, ignoreCase);
    assert MaskOf(env, v, ignoreCase) == MDict(v.typ, v.isNil, m);
    assert MaskOf(env, w, ignoreCase) == MDict(w.typ, w.isNil, n);
    hide MaskOf, EntryMasks;
    DictMask(env, v, ignoreCase);
    DictMask(env, w, ignoreCase);
  }

  lemma SameDictDown(env: Env, v: Value, w: Value, i: nat, ignoreCase: bool)
    requires Typed(env, v) && Typed(env, w) && v.Dict? && w.Dict? && v.typ == w.typ && v.isNil == w.isNil
    requires i < |v.entries| && Same(env, v, w, ignoreCase)
    ensures SameEntry(env, v, w, i, ignoreCase)
  {
    assert Comparable(env, v.entries[i].value);
    hide MaskOf, Comparable;
    var m, n := DictMasks(env, v, w, ignoreCase);
    assert v.entries[i].key in n;
    var other := Find(w.entries, v.entries[i].key);
    assert other.Some?;
    var k :| 0 <= k < |w.entries| && w.entries[k] == Entry(v.entries[i].key, other.value);
    assert n[w.entries[k].key] == MaskOf(env, other.value, ignoreCase);
  }

  lemma FoundEntry(env: Env, v: Value, w: Value, i: nat, ignoreCase: bool) returns (k: nat)
    requires Typed(env, v) && Typed(env, w) && v.Dict? && w.Dict? && i < |v.entries| && SameEntry(env, v, w, i, ignoreCase)
    ensures k < |w.entries| && w.entries[k].key == v.entries[i].key
    ensures MaskOf(env, w.entries[k].value, ignoreCase) == MaskOf(env, v.entries[i].value, ignoreCase)
  {
    hide MaskOf, Comparable;
    var other := Find(w.entries, v.entries[i].key);
    k :| 0 <= k < |w.entries| && w.entries[k] == Entry(v.entries[i].key, other.value);
  }

  lemma SameDictUp(env: Env, v: Value, w: Value, ignoreCase: bool)
    requires Typed(env, v) && Typed(env, w) && v.Dict? && w.Dict? && v.typ == w.typ && v.isNil == w.isNil
    requires |v.entries| == |w.entries| && forall i :: 0 <= i < |v.entries| ==> SameEntry(env, v, w, i, ignoreCase)
    ensures MaskOf(env, v, ignoreCase) == MaskOf(env, w, ignoreCase)
  {
    hide MaskOf, SameEntry;
    var m, n := DictMasks(env, v, w, ignoreCase);
    forall i: nat | i < |v.entries| ensures v.entries[i].key in n && m[v.entries[i].key] == n[v.entries[i].key] {
      var k := FoundEntry(env, v, w, i, ignoreCase);
    }
    SameMaps(v.entries, m, n);
  }

  lemma SameDict(env: Env, v: Value, w: Value, ignoreCase: bool)
    requires Typed(env, v) && Typed(env, w) && v.Dict? && w.Dict? && v.typ == w.typ
    ensures Same(env, v, w, ignoreCase) <==>
      && v.isNil == w.isNil && |v.entries| == |w.entries|
      && forall i :: 0 <= i < |v.entries| ==> SameEntry(env, v, w, i, ignoreCase)
  {
    if Same(env, v, w, ignoreCase) {
      assert MaskOf(env, v, ignoreCase).isNil == v.isNil;
      var m, n := DictMasks(env, v, w, ignoreCase);
      forall i | 0 <= i < |v.entries| ensures SameEntry(env, v, w, i, ignoreCase) {
        SameDictDown(env, v, w, i, ignoreCase);
      }
    } else if v.isNil == w.isNil && |v.entries| == |w.entries| && forall i :: 0 <= i < |v.entries| ==> SameEntry(env, v, w, i, ignoreCase) {
      SameDictUp(env, v, w, ignoreCase);
      forall i | 0 <= i < |v.entries| ensures Comparable(env, v.entries[i].value) {
        assert SameEntry(env, v, w, i, ignoreCase);
      }
    }
  }

  // ---- the validator accepts exactly the unchanged ----

  /**
   For all values of all types: the validator accepts exactly when nothing
   outside mutable fields has changed, up to case where case is ignored, and
   everything there is comparable.
   */
  lemma {:induction false} AcceptsIffSame(env: Env, path: Path, v: Value, w: Value, ignoreCase: bool)
    requires Typed(env, v) && Typed(env, w)
    ensures Validate(env, path, v, w, ignoreCase).Accepted? <==> Same(env, v, w, ignoreCase)
    decreases v, 1, 0
  {
    if v.typ == w.typ {
      match v
      case Scalar(_, _, _) =>
      case Text(_, text) => FoldedEqual(env, text, w.text);
      case List(_, _, items) =>
        SameList(env, v, w, ignoreCase);
        if |items| == |w.items| {
          ItemsIffSame(env, path, v, w, 0, ignoreCase);
        }
      case Ref(_, target) =>
        if target.Some? && w.target.Some? {
          AcceptsIffSame(env, path, target.value, w.target.value, ignoreCase);
        }
      case Dict(_, _, entries) =>
        SameDict(env, v, w, ignoreCase);
        EntriesIffSame(env, path, v, w, 0, ignoreCase);
      case Record(_, _) =>
        SameRecord(env, v, w, ignoreCase);
        FieldsIffSame(env, path, v, w, 0, ignoreCase);
      case Other(_) =>
    }
  }

  lemma {:induction false} ItemsIffSame(env: Env, path: Path, v: Value, w: Value, i: nat, ignoreCase: bool)
    requires Typed(env, v) && Typed(env, w) && v.List? && w.List? && i <= |v.items| == |w.items|
    ensures ValidateItems(env, path, v, w, i, ignoreCase).Accepted? <==>
      forall k :: i <= k < |v.items| ==> SameItem(env, v, w, k, ignoreCase)
    decreases v, 0, |v.items| - i
  {
    hide MaskOf, Comparable;
    if i < |v.items| {
      AcceptsIffSame(env, path + [IndexStep(env, i, v.items[i])], v.items[i], w.items[i], ignoreCase);
      ItemsIffSame(env, path, v, w, i + 1, ignoreCase);
      assert SameItem(env, v, w, i, ignoreCase) <==> Same(env, v.items[i], w.items[i], ignoreCase);
    }
  }

  lemma {:induction false} EntriesIffSame(env: Env, path: Path, v: Value, w: Value, i: nat, ignoreCase: bool)
    requires Typed(env, v) && Typed(env, w) && v.Dict? && w.Dict? && i <= |v.entries|
    ensures ValidateEntries(env, path, v, w, i, ignoreCase).Accepted? <==>
      forall k :: i <= k < |v.entries| ==> SameEntry(env, v, w, k, ignoreCase)
    decreases v, 0, |v.entries| - i
  {
    if i < |v.entries| {
      var e := v.entries[i];
      var other := Find(w.entries, e.key);
      if other.Some? {
        AcceptsIffSame(env, path + [Key(e.key)], e.value, other.value, ignoreCase);
      }
      EntriesIffSame(env, path, v, w, i + 1, ignoreCase);
      assert SameEntry(env, v, w, i, ignoreCase) <==> other.Some? && Same(env, e.value, other.value, ignoreCase);
    }
  }

  lemma {:induction false} FieldsIffSame(env: Env, path: Path, v: Value, w: Value, i: nat, ignoreCase: bool)
    requires Typed(env, v) && Typed(env, w) && v.Record? && w.Record? && v.typ == w.typ && i <= |v.fields|
    ensures ValidateFields(env, path, v, w, i, ignoreCase).Accepted? <==>
      forall k :: i <= k < |v.fields| ==> SameField(env, v, w, k, ignoreCase)
    decreases v, 0, |v.fields| - i
  {
    hide MaskOf, Comparable;
    if i < |v.fields| {
      var f := env.types(v.typ).fields[i];
      if !f.tag.Mutable? {
        AcceptsIffSame(env, path + [Member(f.name)], v.fields[i], w.fields[i], ignoreCase || f.tag.IgnoreCase?);
      }
      FieldsIffSame(env, path, v, w, i + 1, ignoreCase);
      assert SameField(env, v, w, i, ignoreCase) <==>
        f.tag.Mutable? || Same(env, v.fields[i], w.fields[i], ignoreCase || f.tag.IgnoreCase?);
    }
  }

  // ---- an equivalence relation ----

  lemma OtherEntry(env: Env, v: Value, w: Value, j: nat, ignoreCase: bool) returns (i: nat)
    requires Typed(env, v) && Typed(env, w) && v.Dict? && w.Dict? && v.typ == w.typ && v.isNil == w.isNil
    requires j < |w.entries| && Same(env, v, w, ignoreCase)
    ensures i < |v.entries| && v.entries[i].key == w.entries[j].key
    ensures Same(env, v.entries[i].value, w.entries[j].value, ignoreCase)
  {
    hide MaskOf, Comparable;
    var m, n := DictMasks(env, v, w, ignoreCase);
    assert w.entries[j].key in m.Keys;
    i :| 0 <= i < |v.entries| && v.entries[i].key == w.entries[j].key;
    SameDictDown(env, v, w, i, ignoreCase);
    var other := Find(w.entries, v.entries[i].key);
    var k :| 0 <= k < |w.entries| && w.entries[k] == Entry(v.entries[i].key, other.value);
    assert k == j;
  }

  lemma {:induction false} SameIsComparable(env: Env, v: Value, w: Value, ignoreCase: bool)
    requires Typed(env, v) && Typed(env, w) && Same(env, v, w, ignoreCase)
    ensures Comparable(env, w)
  {
    match v
    case Scalar(_, _, _) =>
    case Text(_, _) =>
    case Ref(_, target) =>
      if target.Some? {
        SameIsComparable(env, target.value, w.target.value, ignoreCase);
      }
    case List(_, _, items) =>
      SameList(env, v, w, ignoreCase);
      forall i | 0 <= i < |w.items| ensures Comparable(env, w.items[i]) {
        assert SameItem(env, v, w, i, ignoreCase);
        SameIsComparable(env, items[i], w.items[i], ignoreCase);
      }
    case Dict(_, _, entries) =>
      forall j | 0 <= j < |w.entries| ensures Comparable(env, w.entries[j].value) {
        var i := OtherEntry(env, v, w, j, ignoreCase);
        SameIsComparable(env, entries[i].value, w.entries[j].value, ignoreCase);
      }
    case Record(_, fields) =>
      SameRecord(env, v, w, ignoreCase);
      forall i | 0 <= i < |w.fields| ensures env.types(w.typ).fields[i].tag.Mutable? || Comparable(env, w.fields[i]) {
        assert SameField(env, v, w, i, ignoreCase);
        var tag := env.types(v.typ).fields[i].tag;
        if !tag.Mutable? {
          SameIsComparable(env, fields[i], w.fields[i], ignoreCase || tag.IgnoreCase?);
        }
      }
  }

  ghost predicate Accepts(env: Env, v: Value, w: Value)
    requires Typed(env, v) && Typed(env, w)
  {
    Validate(env, [], v, w, false).Accepted?
  }

  /** On comparable values, acceptance is an equivalence relation; an incomparable value is not even accepted with itself. */
  lemma AcceptanceIsEquivalence(env: Env, u: Value, v: Value, w: Value)
    requires Typed(env, u) && Typed(env, v) && Typed(env, w)
    ensures Accepts(env, u, u) <==> Comparable(env, u)
    ensures Accepts(env, u, v) ==> Accepts(env, v, u)
    ensures Accepts(env, u, v) && Accepts(env, v, w) ==> Accepts(env, u, w)
  {
    AcceptsIffSame(env, [], u, u, false);
    AcceptsIffSame(env, [], u, v, false);
    AcceptsIffSame(env, [], v, u, false);
    AcceptsIffSame(env, [], v, w, false);
    AcceptsIffSame(env, [], u, w, false);
    hide MaskOf, Comparable, Typed, Validate;
    if Accepts(env, u, v) {
      SameIsComparable(env, u, v, false);
    }
  }
}
