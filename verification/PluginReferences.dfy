/** What a plugin reference identifies. */
module PluginReferences {
  datatype Reference = Reference(
    name: string, version: string, configHash: string, objectKey: string, definition: string,
    dependencies: seq<Reference>)

  /** A reference without what does not belong to its identity, at every depth. */
  function Identity(r: Reference): Reference {
    r.(objectKey := "", definition := "",
       dependencies := seq(|r.dependencies|, i requires 0 <= i < |r.dependencies| => Identity(r.dependencies[i])))
  }

  predicate Same(a: Reference, b: Reference) { Identity(a) == Identity(b) }

  /** Two references are the same exactly when name, version and configuration are, and the dependencies one by
      one. */
  lemma SameExactly(a: Reference, b: Reference)
    ensures Same(a, b) <==>
              && a.name == b.name && a.version == b.version && a.configHash == b.configHash
              && |a.dependencies| == |b.dependencies|
              && forall i :: 0 <= i < |a.dependencies| ==> Same(a.dependencies[i], b.dependencies[i])
  {
    var x, y := Identity(a).dependencies, Identity(b).dependencies;
    if Same(a, b) {
      assert |x| == |y|;
      forall i | 0 <= i < |a.dependencies| ensures Same(a.dependencies[i], b.dependencies[i]) { assert x[i] == y[i]; }
    } else if |a.dependencies| == |b.dependencies| && x != y {
      var i :| 0 <= i < |x| && x[i] != y[i];
      assert !Same(a.dependencies[i], b.dependencies[i]);
    }
  }

  /** Two references are the same exactly when they agree in everything but where a definition is kept
      and what it says, through all their dependencies in order. */
  method SameReferenceIdentity(a: Reference, b: Reference) returns (same: bool)
    ensures same <==> Identity(a) == Identity(b)
    decreases a
  {
    for i := 0 to |a.dependencies|
      invariant i <= |b.dependencies|
      invariant forall k :: 0 <= k < i ==> Identity(a.dependencies[k]) == Identity(b.dependencies[k])
    {
      if i >= |b.dependencies| {
        assert |Identity(a).dependencies| != |Identity(b).dependencies|;
        return false;
      }
      var equal := SameReferenceIdentity(a.dependencies[i], b.dependencies[i]);
      if !equal {
        assert i < |b.dependencies| && Identity(a).dependencies[i] != Identity(b).dependencies[i];
        return false;
      }
    }
    same := a.name == b.name && a.version == b.version && a.configHash == b.configHash
            && |a.dependencies| == |b.dependencies|;
    assert same ==> Identity(a).dependencies == Identity(b).dependencies;
    assert !same && |a.dependencies| != |b.dependencies| ==> |Identity(a).dependencies| != |Identity(b).dependencies|;
  }
}
