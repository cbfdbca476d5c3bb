/**
 Where the validator of immutable fields says that two values differ: at the first
 place, in the order of fields, elements and entries, at which they do.
 */
module FirstDifference {
  import opened Wrappers
  import opened Immutable

  /** The values differ themselves, not only inside. */
  ghost predicate DifferHere(env: Env, v: Value, w: Value, ignoreCase: bool)
    requires Typed(env, v) && Typed(env, w)
  {
    || v.typ != w.typ
    || match v
      case Scalar(_, number, nan) => nan || w.nan || number != w.number
      case Text(_, text) => if ignoreCase then Folded(env, text) != Folded(env, w.text) else text != w.text
      case List(_, isNil, items) => isNil != w.isNil || |items| != |w.items|
      case Ref(_, target) => target.Some? != w.target.Some?
      case Dict(_, isNil, entries) => isNil != w.isNil || |entries| != |w.entries|
      case Record(_, _) => false
      case Other(_) => false
  }

  /** `steps` lead to the first difference: at every step, everything before the place it goes to is the same. */
  ghost predicate FirstAt(env: Env, v: Value, w: Value, ignoreCase: bool, steps: Path)
    requires Typed(env, v) && Typed(env, w)
    decreases v, 1
  {
    if DifferHere(env, v, w, ignoreCase) then steps == []
    else
      match v
      case Ref(_, target) => target.Some? && FirstAt(env, target.value, w.target.value, ignoreCase, steps)
      case List(_, _, _) => exists i: nat :: FirstItem(env, v, w, i, ignoreCase, steps)
      case Dict(_, _, _) => exists i: nat :: FirstEntry(env, v, w, i, ignoreCase, steps)
      case Record(_, _) => exists i: nat :: FirstField(env, v, w, i, ignoreCase, steps)
      case _ => false
  }

  ghost predicate FirstItem(env: Env, v: Value, w: Value, i: nat, ignoreCase: bool, steps: Path)
    requires Typed(env, v) && Typed(env, w) && v.List? && w.List? && |v.items| == |w.items|
    decreases v, 0
  {
    && i < |v.items| && steps != [] && steps[0] == IndexStep(env, i, v.items[i])
    && (forall j: nat :: j < i ==> SameItem(env, v, w, j, ignoreCase))
    && FirstAt(env, v.items[i], w.items[i], ignoreCase, steps[1..])
  }

  ghost predicate FirstEntry(env: Env, v: Value, w: Value, i: nat, ignoreCase: bool, steps: Path)
    requires Typed(env, v) && Typed(env, w) && v.Dict? && w.Dict?
    decreases v, 0
  {
    && i < |v.entries| && steps != [] && steps[0] == Key(v.entries[i].key)
    && (forall j: nat :: j < i ==> SameEntry(env, v, w, j, ignoreCase))
    && Find(w.entries, v.entries[i].key).Some?
    && FirstAt(env, v.entries[i].value, Find(w.entries, v.entries[i].key).value, ignoreCase, steps[1..])
  }

  ghost predicate FirstField(env: Env, v: Value, w: Value, i: nat, ignoreCase: bool, steps: Path)
    requires Typed(env, v) && Typed(env, w) && v.Record? && w.Record? && v.typ == w.typ
    decreases v, 0
  {
    && i < |v.fields| && steps != []
    && var f := env.types(v.typ).fields[i];
      && !f.tag.Mutable? && steps[0] == Member(f.name)
      && (forall j: nat :: j < i ==> SameField(env, v, w, j, ignoreCase))
      && FirstAt(env, v.fields[i], w.fields[i], ignoreCase || f.tag.IgnoreCase?, steps[1..])
  }

  /** The path is the given one, continued to the first difference. */
  ghost predicate Points(env: Env, path: Path, v: Value, w: Value, ignoreCase: bool, p: Path)
    requires Typed(env, v) && Typed(env, w)
  {
    path <= p && FirstAt(env, v, w, ignoreCase, p[|path|..])
  }

  lemma OneStep(path: Path, step: Step, p: Path)
    requires path + [step] <= p
    ensures path <= p && p[|path|..] != [] && p[|path|..][0] == step && p[|path|..][1..] == p[|path + [step]|..]
  {}

  /** If the validator reports a path, it is that of the first difference. */
  lemma {:induction false} ReportsFirstDifference(env: Env, path: Path, v: Value, w: Value, ignoreCase: bool)
    requires Typed(env, v) && Typed(env, w)
    ensures var r := Validate(env, path, v, w, ignoreCase); r.Changed? ==> Points(env, path, v, w, ignoreCase, r.path)
    decreases v, 1, 0
  {
    var r := Validate(env, path, v, w, ignoreCase);
    assert path[|path|..] == [];
    if v.typ == w.typ {
      match v
      case Scalar(_, _, _) =>
      case Text(_, text) => FoldedEqual(env, text, w.text);
      case Other(_) =>
      case Ref(_, target) =>
        if target.Some? && w.target.Some? {
          ReportsFirstDifference(env, path, target.value, w.target.value, ignoreCase);
        }
      case List(_, isNil, items) =>
        if isNil == w.isNil && |items| == |w.items| {
          ReportsItem(env, path, v, w, 0, ignoreCase);
        }
      case Dict(_, isNil, entries) =>
        if isNil == w.isNil && |entries| == |w.entries| {
          ReportsEntry(env, path, v, w, 0, ignoreCase);
        }
      case Record(_, _) => ReportsField(env, path, v, w, 0, ignoreCase);
    }
  }

  lemma {:induction false} ReportsItem(env: Env, path: Path, v: Value, w: Value, i: nat, ignoreCase: bool)
    requires Typed(env, v) && Typed(env, w) && v.List? && w.List? && i <= |v.items| == |w.items|
    requires forall j: nat :: j < i ==> SameItem(env, v, w, j, ignoreCase)
    ensures var r := ValidateItems(env, path, v, w, i, ignoreCase);
      r.Changed? ==> path <= r.path && exists k: nat :: FirstItem(env, v, w, k, ignoreCase, r.path[|path|..])
    decreases v, 0, |v.items| - i
  {
    if i < |v.items| {
      var step := IndexStep(env, i, v.items[i]);
      var r := Validate(env, path + [step], v.items[i], w.items[i], ignoreCase);
      AcceptsIffSame(env, path + [step], v.items[i], w.items[i], ignoreCase);
      ReportsFirstDifference(env, path + [step], v.items[i], w.items[i], ignoreCase);
      hide MaskOf, Comparable;
      if r.Accepted? {
        ReportsItem(env, path, v, w, i + 1, ignoreCase);
      } else if r.Changed? {
        OneStep(path, step, r.path);
        assert FirstItem(env, v, w, i, ignoreCase, r.path[|path|..]);
      }
    }
  }

  lemma {:induction false} ReportsEntry(env: Env, path: Path, v: Value, w: Value, i: nat, ignoreCase: bool)
    requires Typed(env, v) && Typed(env, w) && v.Dict? && w.Dict? && i <= |v.entries|
    requires forall j: nat :: j < i ==> SameEntry(env, v, w, j, ignoreCase)
    ensures var r := ValidateEntries(env, path, v, w, i, ignoreCase);
      r.Changed? ==> path <= r.path && exists k: nat :: FirstEntry(env, v, w, k, ignoreCase, r.path[|path|..])
    decreases v, 0, |v.entries| - i
  {
    if i < |v.entries| && Find(w.entries, v.entries[i].key).Some? {
      var step, x, y := Key(v.entries[i].key), v.entries[i].value, Find(w.entries, v.entries[i].key).value;
      var r := Validate(env, path + [step], x, y, ignoreCase);
      AcceptsIffSame(env, path + [step], x, y, ignoreCase);
      ReportsFirstDifference(env, path + [step], x, y, ignoreCase);
      hide MaskOf, Comparable;
      if r.Accepted? {
        ReportsEntry(env, path, v, w, i + 1, ignoreCase);
      } else if r.Changed? {
        OneStep(path, step, r.path);
        assert FirstEntry(env, v, w, i, ignoreCase, r.path[|path|..]);
      }
    }
  }

  lemma {:induction false} ReportsField(env: Env, path: Path, v: Value, w: Value, i: nat, ignoreCase: bool)
    requires Typed(env, v) && Typed(env, w) && v.Record? && w.Record? && v.typ == w.typ && i <= |v.fields|
    requires forall j: nat :: j < i ==> SameField(env, v, w, j, ignoreCase)
    ensures var r := ValidateFields(env, path, v, w, i, ignoreCase);
      r.Changed? ==> path <= r.path && exists k: nat :: FirstField(env, v, w, k, ignoreCase, r.path[|path|..])
    decreases v, 0, |v.fields| - i
  {
    if i < |v.fields| {
      var f := env.types(v.typ).fields[i];
      if f.tag.Mutable? {
        ReportsField(env, path, v, w, i + 1, ignoreCase);
      } else {
        var step, ic := Member(f.name), ignoreCase || f.tag.IgnoreCase?;
        var r := Validate(env, path + [step], v.fields[i], w.fields[i], ic);
        AcceptsIffSame(env, path + [step], v.fields[i], w.fields[i], ic);
        ReportsFirstDifference(env, path + [step], v.fields[i], w.fields[i], ic);
        hide MaskOf, Comparable;
        if r.Accepted? {
          ReportsField(env, path, v, w, i + 1, ignoreCase);
        } else if r.Changed? {
          OneStep(path, step, r.path);
          assert FirstField(env, v, w, i, ignoreCase, r.path[|path|..]);
        }
      }
    }
  }

  // ---- how the path names an element ----

  /** Field `k` is a string field called Name. */
  predicate IsName(v: Value, fields: seq<Field>, k: nat, name: string)
    requires v.Record? && |fields| <= |v.fields|
  {
    k < |fields| && fields[k].goName == "Name" && v.fields[k].Text? && v.fields[k].text == name
  }

  lemma {:induction false} NameOfIsName(env: Env, v: Value, fields: seq<Field>)
    requires v.Record? && |fields| <= |v.fields|
    ensures var r := NameOf(env, v, fields);
      && (r.Some? ==> exists k: nat :: IsName(v, fields, k, r.value))
      && (r.None? ==> forall k: nat, name :: !IsName(v, fields, k, name))
  {
    if fields != [] {
      var n := |fields| - 1;
      NameOfIsName(env, v, fields[..n]);
      var r := NameOf(env, v, fields);
      if NameOf(env, v, fields[..n]).Some? {
        var k: nat :| IsName(v, fields[..n], k, r.value);
        assert IsName(v, fields, k, r.value);
      } else {
        forall k: nat, name | k < n ensures !IsName(v, fields, k, name) {
          assert !IsName(v, fields[..n], k, name);
        }
        if r.Some? {
          assert IsName(v, fields, n, r.value);
        }
      }
    }
  }

  /** An element of a list is shown by its Name, if it is a struct that has one, and by its index otherwise. */
  lemma ElementsAreShownByName(env: Env, i: nat, item: Value)
    requires Typed(env, item)
    ensures var step := IndexStep(env, i, item);
      && (step.Named? ==> item.Record? && exists k: nat :: IsName(item, env.types(item.typ).fields, k, step.name))
      && (!step.Named? ==> step == Index(i) && (item.Record? ==> forall k: nat, name :: !IsName(item, env.types(item.typ).fields, k, name)))
  {
    if item.Record? {
      NameOfIsName(env, item, env.types(item.typ).fields);
    }
  }

  // ---- the other ways to stop ----

  /** Some value inside `v` is of a kind that the validator does not know. */
  ghost predicate HasUnknown(v: Value) {
    match v
    case Other(_) => true
    case List(_, _, items) => exists i :: 0 <= i < |items| && HasUnknown(items[i])
    case Ref(_, target) => target.Some? && HasUnknown(target.value)
    case Dict(_, _, entries) => exists i :: 0 <= i < |entries| && HasUnknown(entries[i].value)
    case Record(_, fields) => exists i :: 0 <= i < |fields| && HasUnknown(fields[i])
    case _ => false
  }

  ghost predicate HasMap(v: Value) {
    match v
    case Dict(_, _, _) => true
    case List(_, _, items) => exists i :: 0 <= i < |items| && HasMap(items[i])
    case Ref(_, target) => target.Some? && HasMap(target.value)
    case Record(_, fields) => exists i :: 0 <= i < |fields| && HasMap(fields[i])
    case _ => false
  }

  /** It reports an unimplemented kind only if there is one, and panics only in a map. */
  lemma {:induction false} StopsForAReason(env: Env, path: Path, v: Value, w: Value, ignoreCase: bool)
    requires Typed(env, v) && Typed(env, w)
    ensures var r := Validate(env, path, v, w, ignoreCase); (r.Unimplemented? ==> HasUnknown(v)) && (r.Panics? ==> HasMap(v))
    decreases v, 1, 0
  {
    if v.typ == w.typ {
      match v
      case Scalar(_, _, _) =>
      case Text(_, _) =>
      case Other(_) =>
      case Ref(_, target) =>
        if target.Some? && w.target.Some? {
          StopsForAReason(env, path, target.value, w.target.value, ignoreCase);
        }
      case List(_, _, items) =>
        if |items| == |w.items| {
          ItemsStop(env, path, v, w, 0, ignoreCase);
        }
      case Dict(_, _, _) => EntriesStop(env, path, v, w, 0, ignoreCase);
      case Record(_, _) => FieldsStop(env, path, v, w, 0, ignoreCase);
    }
  }

  lemma {:induction false} ItemsStop(env: Env, path: Path, v: Value, w: Value, i: nat, ignoreCase: bool)
    requires Typed(env, v) && Typed(env, w) && v.List? && w.List? && i <= |v.items| == |w.items|
    ensures var r := ValidateItems(env, path, v, w, i, ignoreCase); (r.Unimplemented? ==> HasUnknown(v)) && (r.Panics? ==> HasMap(v))
    decreases v, 0, |v.items| - i
  {
    if i < |v.items| {
      StopsForAReason(env, path + [IndexStep(env, i, v.items[i])], v.items[i], w.items[i], ignoreCase);
      ItemsStop(env, path, v, w, i + 1, ignoreCase);
    }
  }

  lemma {:induction false} EntriesStop(env: Env, path: Path, v: Value, w: Value, i: nat, ignoreCase: bool)
    requires Typed(env, v) && Typed(env, w) && v.Dict? && w.Dict? && i <= |v.entries|
    ensures var r := ValidateEntries(env, path, v, w, i, ignoreCase); r.Unimplemented? ==> HasUnknown(v)
    decreases v, 0, |v.entries| - i
  {
    if i < |v.entries| {
      var e, other := v.entries[i], Find(w.entries, v.entries[i].key);
      if other.Some? {
        StopsForAReason(env, path + [Key(e.key)], e.value, other.value, ignoreCase);
      }
      EntriesStop(env, path, v, w, i + 1, ignoreCase);
    }
  }

  lemma {:induction false} FieldsStop(env: Env, path: Path, v: Value, w: Value, i: nat, ignoreCase: bool)
    requires Typed(env, v) && Typed(env, w) && v.Record? && w.Record? && v.typ == w.typ && i <= |v.fields|
    ensures var r := ValidateFields(env, path, v, w, i, ignoreCase); (r.Unimplemented? ==> HasUnknown(v)) && (r.Panics? ==> HasMap(v))
    decreases v, 0, |v.fields| - i
  {
    if i < |v.fields| {
      var f := env.types(v.typ).fields[i];
      if !f.tag.Mutable? {
        StopsForAReason(env, path + [Member(f.name)], v.fields[i], w.fields[i], ignoreCase || f.tag.IgnoreCase?);
      }
      FieldsStop(env, path, v, w, i + 1, ignoreCase);
    }
  }
}
