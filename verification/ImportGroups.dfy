/**
 The check of import blocks: imports are split into groups at blank lines, and the
 groups must be of one type each, in the order of the types, without repetition.
 */
module ImportGroups {
  import opened Wrappers

  /** An import: its name, if it has one, its quoted path, and the line it starts on. */
  datatype Import = Import(name: Option<string>, path: string, line: int)

  type Group = seq<Import>

  // ---- types of imports ----

  datatype ImportType = Std | Dot | Other | Local

  type Mask = bv8

  /** The constant that stands for the type: one bit each, in the required order. */
  function Bit(t: ImportType): Mask {
    match t
    case Std => 1
    case Dot => 2
    case Other => 4
    case Local => 8
  }

  const LOCAL := "github.com/Azure/ARO-RP"

  function TrimLeft(s: string): string {
    if s != [] && s[0] == '"' then TrimLeft(s[1..]) else s
  }

  function TrimRight(s: string): string {
    if s != [] && s[|s| - 1] == '"' then TrimRight(s[..|s| - 1]) else s
  }

  function Trim(s: string): string {
    TrimRight(TrimLeft(s))
  }

  function TypeForImport(imp: Import): ImportType
  {
    var path := Trim(imp.path);
    if imp.name == Some(".") then Dot
    else if LOCAL + "/" <= path then Local
    else if '.' in path then Other
    else Std
  }

  /** A path as it stands in a source file. */
  function Quoted(p: string): string {
    "\"" + p + "\""
  }

  predicate Unquoted(p: string) {
    p != [] && p[0] != '"' && p[|p| - 1] != '"'
  }

  lemma TrimQuoted(p: string)
    requires Unquoted(p)
    ensures Trim(Quoted(p)) == p
  {
    var q := Quoted(p);
    assert q[1..] == p + "\"";
    assert TrimLeft(q) == p + "\"";
    var r := p + "\"";
    assert r[..|r| - 1] == p && r[|r| - 1] == '"';
    assert TrimRight(r) == TrimRight(p) == p;
  }

  /** Which imports have each type: "." imports first of all, then local ones, then those with a dot in the path. */
  lemma TypesOfImports(name: Option<string>, p: string, line: int)
    requires Unquoted(p)
    ensures var t := TypeForImport(Import(name, Quoted(p), line));
      && (t.Dot? <==> name == Some("."))
      && (t.Local? <==> name != Some(".") && "github.com/Azure/ARO-RP/" <= p)
      && (t.Other? <==> name != Some(".") && !("github.com/Azure/ARO-RP/" <= p) && '.' in p)
      && (t.Std? <==> name != Some(".") && !("github.com/Azure/ARO-RP/" <= p) && '.' !in p)
  {
    TrimQuoted(p);
    assert LOCAL + "/" == "github.com/Azure/ARO-RP/";
  }

  /** The only "." imports that are not reported are those of ginkgo and gomega. */
  lemma AllowedDotImports(p: string, line: int)
    requires Unquoted(p)
    ensures BadDot(Import(Some("."), Quoted(p), line)) <==>
      p !in ["github.com/onsi/ginkgo", "github.com/onsi/gomega", "github.com/onsi/gomega/gstruct"]
  {
    TrimQuoted(p);
  }

  /** The place of a type in the required order. */
  function Rank(t: ImportType): nat {
    match t
    case Std => 0
    case Dot => 1
    case Other => 2
    case Local => 3
  }

  function GroupRank(g: Group): nat
    requires g != []
  {
    Rank(TypeForImport(g[0]))
  }

  // ---- groups ----

  function Flatten(groups: seq<Group>): Group {
    if groups == [] then [] else Flatten(groups[..|groups| - 1]) + groups[|groups| - 1]
  }

  predicate Gap(x: Import, y: Import) {
    y.line - x.line > 1
  }

  predicate GapBefore(g: Group, i: int) {
    0 < i < |g| && Gap(g[i - 1], g[i])
  }

  predicate Compact(g: Group) {
    g != [] && forall i :: 0 < i < |g| ==> !GapBefore(g, i)
  }

  /** Compact groups with a gap between each and the next. */
  predicate Separated(groups: seq<Group>) {
    && (forall k :: 0 <= k < |groups| ==> Compact(groups[k]))
    && (forall k :: 0 < k < |groups| ==> Gap(groups[k - 1][|groups[k - 1]| - 1], groups[k][0]))
  }

  predicate IsGrouping(groups: seq<Group>, imports: Group) {
    Separated(groups) && Flatten(groups) == imports
  }

  predicate EndsWith(groups: seq<Group>, imp: Import) {
    groups != [] && var g := groups[|groups| - 1]; g != [] && g[|g| - 1] == imp
  }

  lemma NoGroups()
    ensures Separated([]) && Flatten([]) == []
  {}

  lemma FewerGroups(groups: seq<Group>, n: nat)
    requires Separated(groups) && n <= |groups|
    ensures Separated(groups[..n])
  {}

  /** The loop that opens a group at each gap. */
  method SplitGroups(imports: Group) returns (groups: seq<Group>)
    ensures IsGrouping(groups, imports)
  {
    hide Separated, Flatten, EndsWith;
    NoGroups();
    groups := [];
    for i := 0 to |imports|
      invariant Separated(groups) && Flatten(groups) == imports[..i]
      invariant i > 0 ==> EndsWith(groups, imports[i - 1])
      invariant i == 0 ==> groups == []
    {
      if i == 0 || imports[i].line - imports[i - 1].line > 1 {
        groups := OpenGroup(groups, imports[i]);
      } else {
        groups := ExtendGroup(groups, imports[i]);
      }
      assert imports[..i + 1] == imports[..i] + [imports[i]];
    }
    assert imports[..|imports|] == imports;
  }

  function OpenGroup(groups: seq<Group>, imp: Import): (r: seq<Group>)
    requires Separated(groups)
    requires groups == [] || exists last :: EndsWith(groups, last) && Gap(last, imp)
    ensures Separated(r) && Flatten(r) == Flatten(groups) + [imp] && EndsWith(r, imp)
  {
    var r := groups + [[imp]];
    assert r[..|groups|] == groups;
    r
  }

  function ExtendGroup(groups: seq<Group>, imp: Import): (r: seq<Group>)
    requires Separated(groups) && exists last :: EndsWith(groups, last) && !Gap(last, imp)
    ensures Separated(r) && Flatten(r) == Flatten(groups) + [imp] && EndsWith(r, imp)
  {
    var n := |groups| - 1;
    var r := groups[n := groups[n] + [imp]];
    assert r[..n] == groups[..n];
    assert Compact(groups[n]);
    assert forall i :: 0 < i < |groups[n]| ==> GapBefore(r[n], i) == GapBefore(groups[n], i);
    r
  }

  /** A list of imports can be grouped in one way only. */
  lemma {:induction false} GroupingIsUnique(a: seq<Group>, b: seq<Group>, imports: Group)
    requires IsGrouping(a, imports) && IsGrouping(b, imports)
    ensures a == b
    decreases |imports|
  {
    hide Separated, GapBefore;
    if a != [] {
      LastGroup(a, imports);
    }
    if b != [] {
      LastGroup(b, imports);
    }
    if imports != [] {
      var m, n := |a| - 1, |b| - 1;
      FewerGroups(a, m);
      FewerGroups(b, n);
      GroupingIsUnique(a[..m], b[..n], imports[..|imports| - |a[m]|]);
      assert a == a[..m] + [a[m]] && b == b[..n] + [b[n]];
    }
  }

  /** The last group reaches back to the last gap. */
  lemma LastGroup(groups: seq<Group>, imports: Group)
    requires IsGrouping(groups, imports) && groups != []
    ensures var i := |imports| - |groups[|groups| - 1]|;
      && 0 <= i < |imports|
      && groups[|groups| - 1] == imports[i..] && Flatten(groups[..|groups| - 1]) == imports[..i]
      && (i > 0 ==> GapBefore(imports, i))
      && forall j :: i < j < |imports| ==> !GapBefore(imports, j)
  {
    var x, before := groups[|groups| - 1], groups[..|groups| - 1];
    var i := |imports| - |x|;
    assert x == imports[i..] && Flatten(before) == imports[..i];
    forall j | i < j < |imports| ensures !GapBefore(imports, j) {
      assert !GapBefore(x, j - i);
    }
    if i > 0 {
      var z := before[|before| - 1];
      assert z == groups[|groups| - 2] && Compact(z);
      assert imports[i - 1] == imports[..i][i - 1] == z[|z| - 1];
      assert imports[i] == x[0];
    }
  }

  // ---- order within a group ----

  /** The order of strings, letter by letter. */
  predicate Less(s: string, t: string) {
    if t == [] then false
    else if s == [] then true
    else s[0] < t[0] || (s[0] == t[0] && Less(s[1..], t[1..]))
  }

  /** `s` is a proper prefix of `t`, or has the smaller letter where they first differ. */
  ghost predicate Before(s: string, t: string) {
    exists k :: 0 <= k < |t| && DiffersAt(s, t, k)
  }

  predicate DiffersAt(s: string, t: string, k: nat) {
    && k <= |s| && k < |t| && s[..k] == t[..k]
    && (k < |s| ==> s[k] < t[k])
  }

  /** The comparison is the lexicographic order. */
  lemma {:induction false} LessIsLexicographic(s: string, t: string)
    ensures Less(s, t) <==> Before(s, t)
  {
    if t != [] && s == [] {
      assert DiffersAt(s, t, 0);
    } else if t != [] && s != [] {
      LessIsLexicographic(s[1..], t[1..]);
      if s[0] < t[0] {
        assert DiffersAt(s, t, 0);
      }
      if s[0] == t[0] && Before(s[1..], t[1..]) {
        var k :| 0 <= k < |t[1..]| && DiffersAt(s[1..], t[1..], k);
        assert s[..k + 1] == [s[0]] + s[1..][..k] && t[..k + 1] == [t[0]] + t[1..][..k];
        assert DiffersAt(s, t, k + 1);
      }
      if k :| 0 < k < |t| && DiffersAt(s, t, k) {
        assert s[..k][0] == t[..k][0];
        assert s[1..][..k - 1] == s[..k][1..] && t[1..][..k - 1] == t[..k][1..];
        assert DiffersAt(s[1..], t[1..], k - 1);
      }
    }
  }

  lemma {:induction false} NotLessTransitive(s: string, t: string, u: string)
    requires !Less(t, s) && !Less(u, t)
    ensures !Less(u, s)
  {
    if s != [] && t != [] && u != [] && s[0] == t[0] == u[0] {
      NotLessTransitive(s[1..], t[1..], u[1..]);
    }
  }

  predicate Sorted(g: Group) {
    forall i, j :: 0 <= i < j < |g| ==> !Less(g[j].path, g[i].path)
  }

  predicate InOrder(g: Group, k: int) {
    0 < k < |g| && !Less(g[k].path, g[k - 1].path)
  }

  /** sort.IsSorted: neighbours only, from the end. */
  method IsSorted(g: Group) returns (r: bool)
    ensures r <==> Sorted(g)
  {
    var i := |g| - 1;
    while i > 0
      invariant -1 <= i < |g|
      invariant |g| > 0 ==> i >= 0
      invariant forall k :: i < k < |g| ==> InOrder(g, k)
    {
      if Less(g[i].path, g[i - 1].path) {
        return false;
      }
      i := i - 1;
    }
    forall a: nat, b: nat | a < b < |g| ensures !Less(g[b].path, g[a].path) {
      NeighboursSuffice(g, a, b);
    }
    return true;
  }

  lemma {:induction false} NeighboursSuffice(g: Group, a: nat, b: nat)
    requires a < b < |g| && forall k :: 0 < k < |g| ==> InOrder(g, k)
    ensures !Less(g[b].path, g[a].path)
  {
    assert InOrder(g, b);
    if a + 1 < b {
      NeighboursSuffice(g, a, b - 1);
      NotLessTransitive(g[a].path, g[b - 1].path, g[b].path);
    }
  }

  // ---- the findings ----

  datatype Finding = NotSorted(group: nat) | BadOrder(group: nat) | InvalidDot(path: string) | Mixed(group: nat)

  predicate AllowedDot(path: string) {
    path == "github.com/onsi/ginkgo" || path == "github.com/onsi/gomega" || path == "github.com/onsi/gomega/gstruct"
  }

  predicate BadDot(imp: Import) {
    TypeForImport(imp).Dot? && !AllowedDot(Trim(imp.path))
  }

  /** A group of an equal or later type precedes group `k`. */
  predicate Misplaced(groups: seq<Group>, k: nat)
    requires k < |groups| && forall j :: 0 <= j < |groups| ==> groups[j] != []
  {
    exists j :: 0 <= j < k && GroupRank(groups[j]) >= GroupRank(groups[k])
  }

  predicate IsMixed(g: Group) {
    g != [] && exists i :: 0 <= i < |g| && TypeForImport(g[i]) != TypeForImport(g[0])
  }

  /** The bits of a type and of all types before it. */
  function Sentinels(t: ImportType): Mask {
    (Bit(t) << 1) - 1
  }

  predicate HasBit(seen: Mask, t: ImportType) {
    seen & Bit(t) != 0
  }

  function Add(seen: Mask, t: ImportType): Mask {
    seen | Sentinels(t)
  }

  lemma SentinelBits(seen: Mask, t: ImportType, u: ImportType)
    ensures HasBit(Add(seen, t), u) <==> HasBit(seen, u) || Rank(t) >= Rank(u)
    ensures !HasBit(0, u)
  {
    assert Sentinels(Std) == 1 && Sentinels(Dot) == 3 && Sentinels(Other) == 7 && Sentinels(Local) == 15;
  }

  // ---- the check ----

  ghost predicate NonEmpty(groups: seq<Group>) {
    forall k :: 0 <= k < |groups| ==> groups[k] != []
  }

  /** The finding is true of one of the first `n` groups; groups are numbered from 1. */
  ghost predicate Deserved(groups: seq<Group>, n: nat, f: Finding)
    requires n <= |groups| && NonEmpty(groups)
  {
    match f
    case NotSorted(k) => 0 < k <= n && !Sorted(groups[k - 1])
    case BadOrder(k) => 0 < k <= n && Misplaced(groups, k - 1)
    case Mixed(k) => 0 < k <= n && IsMixed(groups[k - 1])
    case InvalidDot(path) => exists k :: 0 <= k < n && HasBadDot(groups[k], path)
  }

  ghost predicate HasBadDot(g: Group, path: string) {
    exists imp :: imp in g && BadDot(imp) && imp.path == path
  }

  /** One of the first `n` groups has type `t` or a later one. */
  predicate Reached(groups: seq<Group>, n: nat, t: ImportType)
    requires n <= |groups| && forall j :: 0 <= j < |groups| ==> groups[j] != []
  {
    exists j :: 0 <= j < n && GroupRank(groups[j]) >= Rank(t)
  }

  /** The bits that are set after `n` groups. */
  ghost predicate Seen(groups: seq<Group>, n: nat, seen: Mask)
    requires n <= |groups| && NonEmpty(groups)
  {
    forall t :: HasBit(seen, t) <==> Reached(groups, n, t)
  }

  lemma NothingSeen(groups: seq<Group>)
    requires NonEmpty(groups)
    ensures Seen(groups, 0, 0)
  {
    forall t ensures !HasBit(0, t) {
      SentinelBits(0, t, t);
    }
  }

  lemma SeenMore(groups: seq<Group>, n: nat, seen: Mask)
    requires n < |groups| && NonEmpty(groups) && Seen(groups, n, seen)
    ensures Seen(groups, n + 1, Add(seen, TypeForImport(groups[n][0])))
    ensures HasBit(seen, TypeForImport(groups[n][0])) <==> Misplaced(groups, n)
  {
    hide HasBit, Add, TypeForImport;
    var t := TypeForImport(groups[n][0]);
    assert GroupRank(groups[n]) == Rank(t);
    forall u ensures HasBit(Add(seen, t), u) <==> Reached(groups, n + 1, u) {
      SentinelBits(seen, t, u);
    }
  }

  /** The dot imports of a group that are not allowed. */
  method ValidateImports(g: Group) returns (fs: seq<Finding>)
    ensures forall f :: f in fs <==> f.InvalidDot? && HasBadDot(g, f.path)
  {
    fs := [];
    for i := 0 to |g|
      invariant forall f :: f in fs <==> f.InvalidDot? && HasBadDot(g[..i], f.path)
    {
      if BadDot(g[i]) {
        fs := fs + [InvalidDot(g[i].path)];
      }
      assert g[..i + 1] == g[..i] + [g[i]];
      forall path ensures HasBadDot(g[..i + 1], path) <==> HasBadDot(g[..i], path) || (BadDot(g[i]) && g[i].path == path) {
        assert forall imp :: imp in g[..i + 1] <==> imp in g[..i] || imp == g[i];
      }
    }
    assert g[..|g|] == g;
  }

  method FindMixed(g: Group) returns (mixed: bool)
    requires g != []
    ensures mixed <==> IsMixed(g)
  {
    for i := 0 to |g|
      invariant forall k :: 0 <= k < i ==> TypeForImport(g[k]) == TypeForImport(g[0])
    {
      if TypeForImport(g[i]) != TypeForImport(g[0]) {
        return true;
      }
    }
    return false;
  }

  /** The findings about group `n`, with the bit mask of the groups before it. */
  method CheckGroup(groups: seq<Group>, n: nat, seen: Mask) returns (fs: seq<Finding>, seen': Mask)
    requires n < |groups| && NonEmpty(groups) && Seen(groups, n, seen)
    ensures Seen(groups, n + 1, seen')
    ensures forall f :: f in fs <==> Concerns(groups, n, f)
  {
    hide Seen, Sorted, Misplaced, IsMixed, HasBadDot, TypeForImport, HasBit, Add;
    var g := groups[n];
    fs := [];
    var sorted := IsSorted(g);
    if !sorted {
      fs := fs + [NotSorted(n + 1)];
    }
    SeenMore(groups, n, seen);
    var t := TypeForImport(g[0]);
    if HasBit(seen, t) {
      fs := fs + [BadOrder(n + 1)];
    }
    seen' := Add(seen, t);
    var dots := ValidateImports(g);
    fs := fs + dots;
    var mixed := FindMixed(g);
    if mixed {
      fs := fs + [Mixed(n + 1)];
    }
  }

  /** The finding is true of group `n`. */
  ghost predicate Concerns(groups: seq<Group>, n: nat, f: Finding)
    requires n < |groups| && NonEmpty(groups)
  {
    match f
    case NotSorted(k) => k == n + 1 && !Sorted(groups[n])
    case BadOrder(k) => k == n + 1 && Misplaced(groups, n)
    case Mixed(k) => k == n + 1 && IsMixed(groups[n])
    case InvalidDot(path) => HasBadDot(groups[n], path)
  }

  lemma DeservedMore(groups: seq<Group>, n: nat, f: Finding)
    requires n < |groups| && NonEmpty(groups)
    ensures Deserved(groups, n + 1, f) <==> Deserved(groups, n, f) || Concerns(groups, n, f)
  {
    if f.InvalidDot? && Deserved(groups, n + 1, f) {
      var k :| 0 <= k < n + 1 && HasBadDot(groups[k], f.path);
    }
  }

  /** check: the imports in groups, and all that is wrong with them. */
  method Check(imports: Group) returns (groups: seq<Group>, fs: seq<Finding>)
    ensures IsGrouping(groups, imports) && NonEmpty(groups)
    ensures forall f :: f in fs <==> Deserved(groups, |groups|, f)
  {
    groups := SplitGroups(imports);
    fs := [];
    var seen: Mask := 0;
    NothingSeen(groups);
    for n := 0 to |groups|
      invariant Seen(groups, n, seen)
      invariant forall f :: f in fs <==> Deserved(groups, n, f)
    {
      var more;
      more, seen := CheckGroup(groups, n, seen);
      forall f ensures f in fs + more <==> Deserved(groups, n + 1, f) {
        DeservedMore(groups, n, f);
      }
      fs := fs + more;
    }
  }

  /** No ordering error is reported exactly when the types of the groups strictly increase. */
  lemma OrderedIffIncreasing(groups: seq<Group>)
    requires NonEmpty(groups)
    ensures (forall k :: 0 < k <= |groups| ==> !Deserved(groups, |groups|, BadOrder(k))) <==>
      forall i, j :: 0 <= i < j < |groups| ==> GroupRank(groups[i]) < GroupRank(groups[j])
  {
    if forall k :: 0 < k <= |groups| ==> !Deserved(groups, |groups|, BadOrder(k)) {
      forall i, j | 0 <= i < j < |groups| ensures GroupRank(groups[i]) < GroupRank(groups[j]) {
        assert !Deserved(groups, |groups|, BadOrder(j + 1));
      }
    }
  }
}
