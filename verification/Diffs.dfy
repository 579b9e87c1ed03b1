/** Differences between two configurations, and applying them. */
module Diffs {
  import opened Wrappers

  datatype Json =
    | Null | Bool(b: bool) | Number(r: real) | Str(s: string)
    | Arr(elems: seq<Json>) | Obj(fields: map<string, Json>)

  type Path = seq<string>

  datatype Kind = Added | Removed | Modified
  datatype Diff = Diff(path: Path, kind: Kind, was: Option<Json>, now: Option<Json>)

  // ---- what a difference is ----

  /** d is one of the differences between a and b: the first place on its path where the two part. */
  predicate IsDiff(a: Json, b: Json, d: Diff)
    decreases |d.path|
  {
    if d.path == [] then
      !(a.Obj? && b.Obj?) && a != b && d == Diff([], Modified, Some(a), Some(b))
    else
      var k := d.path[0];
      a.Obj? && b.Obj?
      && if k in a.fields && k in b.fields then IsDiff(a.fields[k], b.fields[k], d.(path := d.path[1..]))
         else if k in a.fields then d == Diff([k], Removed, Some(a.fields[k]), None)
         else k in b.fields && d == Diff([k], Added, None, Some(b.fields[k]))
  }

  predicate IsDiffUnder(prefix: Path, a: Json, b: Json, d: Diff) {
    prefix <= d.path && IsDiff(a, b, d.(path := d.path[|prefix|..]))
  }

  predicate Distinct(ds: seq<Diff>) { forall i, j :: 0 <= i < j < |ds| ==> ds[i] != ds[j] }

  /** All the differences, each once, in some order. */
  ghost predicate Lists(ds: seq<Diff>, prefix: Path, a: Json, b: Json) {
    Distinct(ds) && forall d :: d in ds <==> IsDiffUnder(prefix, a, b, d)
  }

  // ---- finding them ----

  lemma UnderKey(prefix: Path, k: string, m: map<string, Json>, n: map<string, Json>, d: Diff)
    ensures (IsDiffUnder(prefix, Obj(m), Obj(n), d) && d.path[|prefix|] == k && k in m && k in n)
       <==> (k in m && k in n && IsDiffUnder(prefix + [k], m[k], n[k], d))
  {
    if prefix + [k] <= d.path {
      assert d.path[|prefix|..][0] == k && d.path[|prefix|..][1..] == d.path[|prefix + [k]|..];
      assert prefix <= d.path by { assert (prefix + [k])[..|prefix|] == prefix; }
    }
  }

  lemma OneSided(prefix: Path, m: map<string, Json>, n: map<string, Json>, d: Diff)
    ensures (IsDiffUnder(prefix, Obj(m), Obj(n), d) && d.path[|prefix|] !in n)
       <==> (exists k :: k in m && k !in n && d == Diff(prefix + [k], Removed, Some(m[k]), None))
    ensures (IsDiffUnder(prefix, Obj(m), Obj(n), d) && d.path[|prefix|] !in m)
       <==> (exists k :: k in n && k !in m && d == Diff(prefix + [k], Added, None, Some(n[k])))
  {
    if prefix <= d.path && |d.path| > |prefix| {
      var k := d.path[|prefix|];
      assert d.path[|prefix|..][0] == k;
      if d.path[|prefix|..] == [k] { assert d.path == prefix + [k]; }
    }
    forall k | d.path == prefix + [k] ensures d.path[|prefix|] == k && d.path[|prefix|..] == [k] && prefix <= d.path { }
  }

  /** The differences whose first key below the prefix satisfies a condition. */
  ghost predicate ListsKeys(ds: seq<Diff>, prefix: Path, m: map<string, Json>, n: map<string, Json>,
                            keys: set<string>) {
    && Distinct(ds)
    && forall d :: d in ds <==> IsDiffUnder(prefix, Obj(m), Obj(n), d) && d.path[|prefix|] in keys
  }

  lemma Append(ds: seq<Diff>, more: seq<Diff>, prefix: Path, m: map<string, Json>, n: map<string, Json>,
               keys: set<string>, k: string)
    requires ListsKeys(ds, prefix, m, n, keys) && k !in keys
    requires ListsKeys(more, prefix, m, n, {k})
    ensures ListsKeys(ds + more, prefix, m, n, keys + {k})
  {
    forall i, j | 0 <= i < |ds| && 0 <= j < |more| ensures ds[i] != more[j] {
      assert ds[i] in ds && more[j] in more;
    }
  }

  method DiffMaps(prefix: Path, old_: map<string, Json>, new_: map<string, Json>) returns (ds: seq<Diff>)
    ensures Lists(ds, prefix, Obj(old_), Obj(new_))
    decreases Obj(old_), 0
  {
    ds := [];
    var rest := old_.Keys;
    while rest != {}
      invariant rest <= old_.Keys
      invariant ListsKeys(ds, prefix, old_, new_, old_.Keys - rest)
      decreases rest
    {
      var k :| k in rest;
      var more: seq<Diff>;
      if k in new_ {
        more := DiffValues(prefix + [k], old_[k], new_[k]);
        forall d ensures d in more <==> IsDiffUnder(prefix, Obj(old_), Obj(new_), d) && d.path[|prefix|] == k {
          UnderKey(prefix, k, old_, new_, d);
        }
      } else {
        more := [Diff(prefix + [k], Removed, Some(old_[k]), None)];
        forall d ensures d in more <==> IsDiffUnder(prefix, Obj(old_), Obj(new_), d) && d.path[|prefix|] == k {
          OneSided(prefix, old_, new_, d);
        }
      }
      assert ListsKeys(more, prefix, old_, new_, {k});
      Append(ds, more, prefix, old_, new_, old_.Keys - rest, k);
      ds := ds + more;
      assert old_.Keys - (rest - {k}) == (old_.Keys - rest) + {k};
      rest := rest - {k};
    }
    rest := new_.Keys;
    while rest != {}
      invariant rest <= new_.Keys
      invariant ListsKeys(ds, prefix, old_, new_, old_.Keys + (new_.Keys - rest))
      decreases rest
    {
      var k :| k in rest;
      if k !in old_ {
        var more := [Diff(prefix + [k], Added, None, Some(new_[k]))];
        forall d ensures d in more <==> IsDiffUnder(prefix, Obj(old_), Obj(new_), d) && d.path[|prefix|] == k {
          OneSided(prefix, old_, new_, d);
        }
        Append(ds, more, prefix, old_, new_, old_.Keys + (new_.Keys - rest), k);
        ds := ds + more;
      }
      assert old_.Keys + (new_.Keys - (rest - {k})) == (old_.Keys + (new_.Keys - rest)) + {k};
      rest := rest - {k};
    }
    forall d | IsDiffUnder(prefix, Obj(old_), Obj(new_), d) ensures d.path[|prefix|] in old_.Keys + new_.Keys { }
  }

  method DiffValues(path: Path, a: Json, b: Json) returns (ds: seq<Diff>)
    ensures Lists(ds, path, a, b)
    decreases a, 1
  {
    if a.Obj? && b.Obj? {
      ds := DiffMaps(path, a.fields, b.fields);
    } else if a == b {
      ds := [];
      forall d ensures !IsDiffUnder(path, a, b, d) { }
    } else {
      ds := [Diff(path, Modified, Some(a), Some(b))];
      forall d ensures d in ds <==> IsDiffUnder(path, a, b, d) {
        if IsDiffUnder(path, a, b, d) { assert d.path == path; }
      }
    }
  }

  // ---- counting ----

  datatype Result = Result(diffs: seq<Diff>, hasChanges: bool, added: nat, removed: nat, modified: nat)

  function OfKind(ds: seq<Diff>, kind: Kind): nat {
    if ds == [] then 0 else OfKind(ds[..|ds| - 1], kind) + if ds[|ds| - 1].kind == kind then 1 else 0
  }

  lemma {:induction false} OfKindCounts(ds: seq<Diff>, kind: Kind)
    ensures OfKind(ds, kind) == |set i | 0 <= i < |ds| && ds[i].kind == kind|
  {
    if ds != [] {
      var n := |ds| - 1;
      OfKindCounts(ds[..n], kind);
      var before, now := set i | 0 <= i < n && ds[..n][i].kind == kind, set i | 0 <= i < |ds| && ds[i].kind == kind;
      assert now == if ds[n].kind == kind then before + {n} else before;
    }
  }

  method DiffConfigs(old_: map<string, Json>, new_: map<string, Json>) returns (r: Result)
    ensures Lists(r.diffs, [], Obj(old_), Obj(new_))
    ensures r.added == OfKind(r.diffs, Added) && r.removed == OfKind(r.diffs, Removed)
    ensures r.modified == OfKind(r.diffs, Modified)
    ensures r.added + r.removed + r.modified == |r.diffs|
    ensures r.hasChanges <==> old_ != new_
  {
    var diffs := DiffMaps([], old_, new_);
    var added, removed, modified := 0, 0, 0;
    var changes := false;
    for i := 0 to |diffs|
      invariant added == OfKind(diffs[..i], Added) && removed == OfKind(diffs[..i], Removed)
      invariant modified == OfKind(diffs[..i], Modified)
      invariant added + removed + modified == i && (changes <==> i > 0)
    {
      assert diffs[..i + 1][..i] == diffs[..i];
      changes := true;
      match diffs[i].kind
      case Added => added := added + 1;
      case Removed => removed := removed + 1;
      case Modified => modified := modified + 1;
    }
    assert diffs[..|diffs|] == diffs;
    NoDiffExactly(Obj(old_), Obj(new_));
    ghost var a, b := Obj(old_), Obj(new_);
    forall d ensures d in diffs <==> IsDiff(a, b, d) {
      assert d in diffs <==> IsDiffUnder([], a, b, d);
      assert d.path[0..] == d.path;
    }
    if diffs == [] {
      assert Settled(a, b);
    } else {
      assert diffs[0] in diffs;
      assert IsDiff(a, b, diffs[0]);
    }
    return Result(diffs, changes, added, removed, modified);
  }

  // ---- what the differences are worth ----

  ghost predicate Settled(a: Json, b: Json) { forall d :: !IsDiff(a, b, d) }

  /** There is a difference exactly when the values differ. */
  lemma {:induction false} NoDiffExactly(a: Json, b: Json)
    ensures Settled(a, b) <==> a == b
  {
    if a == b {
      forall d ensures !IsDiff(a, b, d) { NoDiffWithItself(a, d); }
    } else {
      var d := SomeDiff(a, b);
      assert !Settled(a, b);
    }
  }

  lemma {:induction false} NoDiffWithItself(a: Json, d: Diff)
    ensures !IsDiff(a, a, d)
    decreases |d.path|
  {
    if d.path != [] && a.Obj? && d.path[0] in a.fields {
      NoDiffWithItself(a.fields[d.path[0]], d.(path := d.path[1..]));
    }
  }

  lemma {:induction false} SomeDiff(a: Json, b: Json) returns (d: Diff)
    requires a != b
    ensures IsDiff(a, b, d)
  {
    if !a.Obj? || !b.Obj? {
      return Diff([], Modified, Some(a), Some(b));
    }
    if k :| k in a.fields && k !in b.fields {
      return Diff([k], Removed, Some(a.fields[k]), None);
    }
    if k :| k in b.fields && k !in a.fields {
      return Diff([k], Added, None, Some(b.fields[k]));
    }
    assert a.fields.Keys == b.fields.Keys;
    var k :| k in a.fields && a.fields[k] != b.fields[k];
    var e := SomeDiff(a.fields[k], b.fields[k]);
    d := e.(path := [k] + e.path);
    assert d.path[1..] == e.path;
    assert d.(path := d.path[1..]) == e;
  }

  /** The value with what stands at a path replaced, put there or taken away. */
  function Put(a: Json, path: Path, v: Option<Json>): Json
    decreases |path|
  {
    if path == [] then (if v.Some? then v.value else a)
    else if !a.Obj? then a
    else if |path| == 1 then
      if v.Some? then Obj(a.fields[path[0] := v.value]) else Obj(a.fields - {path[0]})
    else if path[0] in a.fields then Obj(a.fields[path[0] := Put(a.fields[path[0]], path[1..], v)])
    else a
  }

  function Apply(a: Json, d: Diff): Json { Put(a, d.path, d.now) }

  function ApplyAll(a: Json, ds: seq<Diff>): Json
    decreases |ds|
  {
    if ds == [] then a else ApplyAll(Apply(a, ds[0]), ds[1..])
  }

  /** Applying one difference settles it and touches no other. */
  lemma {:induction false} ApplySettles(a: Json, b: Json, d: Diff, e: Diff)
    requires IsDiff(a, b, d)
    ensures IsDiff(Apply(a, d), b, e) <==> IsDiff(a, b, e) && e != d
    decreases |d.path|
  {
    if d.path == [] {
      NoDiffWithItself(b, e);
    } else {
      var k := d.path[0];
      if k in a.fields && k in b.fields {
        var d', e' := d.(path := d.path[1..]), if e.path == [] then e else e.(path := e.path[1..]);
        ApplyBelow(a, b, d);
        ApplySettles(a.fields[k], b.fields[k], d', e');
        if e.path != [] && e.path[0] == k {
          assert e == d <==> e' == d' by {
            assert d.path == [k] + d'.path && e.path == [k] + e'.path;
          }
        }
      } else if e.path != [] && k in b.fields && e.path[0] == k {
        NoDiffWithItself(b.fields[k], e.(path := e.path[1..]));
      }
    }
  }

  lemma ApplyBelow(a: Json, b: Json, d: Diff)
    requires IsDiff(a, b, d) && d.path != [] && d.path[0] in a.fields && d.path[0] in b.fields
    ensures Apply(a, d) == Obj(a.fields[d.path[0] := Apply(a.fields[d.path[0]], d.(path := d.path[1..]))])
  {
  }

  /** Applied in any order, the differences turn the old value into the new one. */
  lemma {:induction false} PatchReachesNew(a: Json, b: Json, ds: seq<Diff>)
    requires Distinct(ds) && forall d :: d in ds <==> IsDiff(a, b, d)
    ensures ApplyAll(a, ds) == b
    decreases |ds|
  {
    if ds == [] {
      assert Settled(a, b);
      NoDiffExactly(a, b);
    } else {
      var d, rest := ds[0], ds[1..];
      assert ds == [d] + rest;
      assert d in ds;
      forall e ensures e in rest <==> IsDiff(Apply(a, d), b, e) {
        ApplySettles(a, b, d, e);
        assert d !in rest;
      }
      PatchReachesNew(Apply(a, d), b, rest);
    }
  }

  function Back(d: Diff): Diff {
    Diff(d.path, match d.kind case Added => Removed case Removed => Added case Modified => Modified, d.now, d.was)
  }

  lemma {:induction false} BackIsDiff(a: Json, b: Json, d: Diff)
    ensures IsDiff(a, b, d) <==> IsDiff(b, a, Back(d))
    decreases |d.path|
  {
    if d.path != [] && a.Obj? && b.Obj? && d.path[0] in a.fields && d.path[0] in b.fields {
      BackIsDiff(a.fields[d.path[0]], b.fields[d.path[0]], d.(path := d.path[1..]));
      assert Back(d).(path := Back(d).path[1..]) == Back(d.(path := d.path[1..]));
    }
  }

  /** Turned round, they lead back. */
  lemma PatchReachesOld(a: Json, b: Json, ds: seq<Diff>, back: seq<Diff>)
    requires Distinct(ds) && forall d :: d in ds <==> IsDiff(a, b, d)
    requires |back| == |ds| && forall i :: 0 <= i < |ds| ==> back[i] == Back(ds[i])
    ensures ApplyAll(b, back) == a
  {
    forall d ensures d in back <==> IsDiff(b, a, d) {
      BackIsDiff(b, a, d);
      assert Back(Back(d)) == d;
      if d in back {
        var i :| 0 <= i < |back| && back[i] == d;
        assert Back(back[i]) == ds[i];
        assert ds[i] in ds;
      }
      if IsDiff(b, a, d) {
        assert Back(d) in ds;
        var i :| 0 <= i < |ds| && ds[i] == Back(d);
        assert back[i] == d;
      }
    }
    forall i, j | 0 <= i < j < |back| ensures back[i] != back[j] {
      assert Back(back[i]) == ds[i] && Back(back[j]) == ds[j];
    }
    PatchReachesNew(b, a, back);
  }

  // ---- written paths ----

  /** The path as text. */
  function Written(path: Path): string {
    if path == [] then ""
    else
      var front := Written(path[..|path| - 1]);
      if front == "" then path[|path| - 1] else front + "." + path[|path| - 1]
  }

  /** A text cut at its dots. */
  function Split(s: string): (pieces: seq<string>)
    ensures |pieces| > 0
  {
    if s == "" then [""] else Lengthened(Split(s[..|s| - 1]), s[|s| - 1])
  }

  function Lengthened(pieces: seq<string>, c: char): (longer: seq<string>)
    requires |pieces| > 0
    ensures |longer| > 0
  {
    var n := |pieces| - 1;
    if c == '.' then pieces + [""] else pieces[..n] + [pieces[n] + [c]]
  }

  function Glue(pieces: seq<string>): string {
    if pieces == [] then ""
    else if |pieces| == 1 then pieces[0]
    else Glue(pieces[..|pieces| - 1]) + "." + pieces[|pieces| - 1]
  }

  function Trimmed(path: Path): Path { if path != [] && path[0] == "" then Trimmed(path[1..]) else path }

  function SplitAll(path: Path): seq<string> {
    if path == [] then [] else SplitAll(path[..|path| - 1]) + Split(path[|path| - 1])
  }

  /** What the text of a path can still tell: empty keys in front are dropped, and every key is cut at its
      dots. */
  function Normal(path: Path): seq<string> { SplitAll(Trimmed(path)) }

  lemma SplitLonger(s: string, c: char)
    ensures Split(s + [c]) == Lengthened(Split(s), c)
  {
    assert (s + [c])[..|s|] == s;
  }

  lemma LastOf(a: string, b: string)
    requires b != ""
    ensures a + "." + b == a + "." + b[..|b| - 1] + [b[|b| - 1]]
  {
  }

  lemma {:induction false} SplitConcat(a: string, b: string)
    ensures Split(a + "." + b) == Split(a) + Split(b)
  {
    if b == "" {
      DotAtEnd(a);
      SplitLonger(a, '.');
    } else {
      var front, c := b[..|b| - 1], b[|b| - 1];
      SplitConcat(a, front);
      LastOf(a, b);
      SplitLonger(a + "." + front, c);
      LengthenedAfter(Split(a), Split(front), c);
    }
  }

  lemma LengthenedAfter(a: seq<string>, b: seq<string>, c: char)
    requires |b| > 0
    ensures Lengthened(a + b, c) == a + Lengthened(b, c)
  {
  }

  lemma {:induction false} GlueSplit(s: string)
    ensures Glue(Split(s)) == s
  {
    if s != "" {
      GlueSplit(s[..|s| - 1]);
      GlueLengthened(Split(s[..|s| - 1]), s[|s| - 1]);
      LastApart(s);
    }
  }

  lemma GlueLengthened(pieces: seq<string>, c: char)
    requires |pieces| > 0
    ensures Glue(Lengthened(pieces, c)) == Glue(pieces) + [c]
  {
    if c == '.' {
      GlueOne(pieces, "");
      DotAtEnd(Glue(pieces));
    } else {
      LastApart(pieces);
      GlueLast(pieces[..|pieces| - 1], pieces[|pieces| - 1], c);
    }
  }

  lemma DotAtEnd(a: string)
    ensures a + "." + "" == a + ['.']
  {
  }

  lemma LastApart<T>(s: seq<T>)
    requires |s| > 0
    ensures s == s[..|s| - 1] + [s[|s| - 1]]
  {
  }

  lemma GlueOne(front: seq<string>, last: string)
    ensures Glue(front + [last]) == if front == [] then last else Glue(front) + "." + last
  {
    assert (front + [last])[..|front|] == front;
  }

  lemma GlueLast(front: seq<string>, last: string, c: char)
    ensures Glue(front + [last + [c]]) == Glue(front + [last]) + [c]
  {
    GlueOne(front, last);
    GlueOne(front, last + [c]);
    if front != [] {
      assert Glue(front) + "." + (last + [c]) == Glue(front) + "." + last + [c];
    }
  }

  lemma {:induction false} TrimmedAppend(path: Path, k: string)
    ensures Trimmed(path + [k]) == if Trimmed(path) == [] && k == "" then [] else Trimmed(path) + [k]
  {
    if path == [] {
      assert path + [k] == [k];
      assert [k][1..] == [];
    } else if path[0] == "" {
      assert (path + [k])[1..] == path[1..] + [k];
      TrimmedAppend(path[1..], k);
    }
  }

  lemma SplitAllAppend(path: Path, k: string)
    ensures SplitAll(path + [k]) == SplitAll(path) + Split(k)
  {
    assert (path + [k])[..|path|] == path;
  }

  lemma NormalAppend(path: Path, k: string)
    ensures Normal(path + [k]) == if Trimmed(path) == [] && k == "" then [] else Normal(path) + Split(k)
  {
    TrimmedAppend(path, k);
    SplitAllAppend(Trimmed(path), k);
  }

  lemma WrittenAppend(path: Path, k: string)
    ensures Written(path + [k]) == if Written(path) == "" then k else Written(path) + "." + k
  {
    assert (path + [k])[..|path|] == path;
  }

  lemma NothingBefore(pieces: seq<string>)
    ensures [] + pieces == pieces
  {
  }

  /** The text of a path is its normal form with dots between. */
  lemma {:induction false} WrittenIsNormal(path: Path)
    ensures Normal(path) == if Written(path) == "" then [] else Split(Written(path))
    ensures Written(path) == "" <==> Trimmed(path) == []
  {
    if path != [] {
      var front, last := path[..|path| - 1], path[|path| - 1];
      LastApart(path);
      WrittenIsNormal(front);
      NormalAppend(front, last);
      WrittenAppend(front, last);
      TrimmedAppend(front, last);
      if Written(front) == "" { NothingBefore(Split(last)); } else { SplitConcat(Written(front), last); }
    }
  }

  /** Two paths are written alike exactly when their normal forms are equal. */
  lemma WrittenAlikeExactly(p: Path, q: Path)
    ensures Written(p) == Written(q) <==> Normal(p) == Normal(q)
  {
    WrittenIsNormal(p);
    WrittenIsNormal(q);
    GlueSplit(Written(p));
    GlueSplit(Written(q));
  }

  predicate Plain(path: Path) { forall i :: 0 <= i < |path| ==> path[i] != "" && '.' !in path[i] }

  /** So the text tells paths apart whose keys are not empty and hold no dot, */
  lemma WrittenIsInjective(p: Path, q: Path)
    requires Plain(p) && Plain(q) && Written(p) == Written(q)
    ensures p == q
  {
    WrittenAlikeExactly(p, q);
    PlainIsNormal(p);
    PlainIsNormal(q);
  }

  lemma {:induction false} PlainIsNormal(path: Path)
    requires Plain(path)
    ensures SplitAll(path) == path && Trimmed(path) == path
  {
    if path != [] {
      PlainIsNormal(path[..|path| - 1]);
      Undotted(path[|path| - 1]);
      LastApart(path);
    }
  }

  lemma {:induction false} Undotted(k: string)
    requires '.' !in k
    ensures Split(k) == [k]
  {
    if k != "" {
      var front, c := k[..|k| - 1], k[|k| - 1];
      Undotted(front);
      LengthenedOne(front, c);
      LastApart(k);
    }
  }

  lemma LengthenedOne(s: string, c: char)
    requires c != '.'
    ensures Lengthened([s], c) == [s + [c]]
  {
    assert [s][..0] == [];
    NothingBefore([s + [c]]);
  }

  /** and confuses others. */
  lemma WrittenPathsCanCollide()
    ensures Written(["a.b"]) == Written(["a", "b"]) && Written(["", "a"]) == Written(["a"])
  {
    assert ["a", "b"][..1] == ["a"] && ["", "a"][..1] == [""];
    assert Written(["a"]) == "a" && Written([""]) == "" && Written(["a.b"]) == "a.b";
    assert "a" + "." + "b" == "a.b";
  }
}
