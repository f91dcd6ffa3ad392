/**
 * The closed registry of experimental features. Each enum constant carries
 * a stable integer id, which is what crosses the boundary to the engine.
 */
module ExperimentalFeatures {

  datatype ExperimentalFeature = RecordReferences | GraphQl | BearerAccess | DefineApi

  /**
   * The constants in declaration order. An `EnumSet` iterates its members
   * in this order, so it fixes the order of every exported id array.
   */
  const Declared: seq<ExperimentalFeature> := [RecordReferences, GraphQl, BearerAccess, DefineApi]

  /** `getValue`: the stable wire id, which is also the constant's declaration position. */
  function Value(f: ExperimentalFeature): (id: int)
    ensures 0 <= id < |Declared| && Declared[id] == f
  {
    match f
    case RecordReferences => 0
    case GraphQl => 1
    case BearerAccess => 2
    case DefineApi => 3
  }

  /** The declaration lists every feature, each exactly once. */
  lemma DeclaredIsComplete()
    ensures forall f: ExperimentalFeature :: f in Declared
    ensures forall i, j :: 0 <= i < j < |Declared| ==> Declared[i] != Declared[j]
  {
    forall f: ExperimentalFeature
      ensures f in Declared
    {
      assert Declared[Value(f)] == f;
    }
  }

  /** Distinct features have distinct ids. */
  lemma ValueInjective(f: ExperimentalFeature, g: ExperimentalFeature)
    ensures Value(f) == Value(g) ==> f == g
  {
  }

  /** Every id in 0..3 is the id of some feature, and no other id is. */
  lemma ValueOnto(id: int)
    ensures (exists f :: Value(f) == id) <==> 0 <= id <= 3
  {
    if 0 <= id <= 3 {
      assert Value(Declared[id]) == id;
    }
  }

  /**
   * `ids` is what `stream().mapToInt(getValue).toArray()` yields for the set
   * `s`: strictly ascending (so no id twice), the id of every member, and
   * nothing but ids of members.
   */
  predicate IsIdExport(ids: seq<int>, s: set<ExperimentalFeature>)
  {
    && (forall i, j :: 0 <= i < j < |ids| ==> ids[i] < ids[j])
    && (forall f :: f in s <==> Value(f) in ids)
    && (forall i :: 0 <= i < |ids| ==> 0 <= ids[i] < |Declared| && Declared[ids[i]] in s)
  }

  /** Walks the features in declaration order and collects the ids of the members of `s`. */
  method ExportIds(s: set<ExperimentalFeature>) returns (ids: seq<int>)
    ensures IsIdExport(ids, s)
  {
    ids := [];
    for k := 0 to |Declared|
      invariant forall i, j :: 0 <= i < j < |ids| ==> ids[i] < ids[j]
      invariant forall i :: 0 <= i < |ids| ==> 0 <= ids[i] < k && Declared[ids[i]] in s
      invariant forall f :: (f in s && Value(f) < k) <==> Value(f) in ids
    {
      var f := Declared[k];
      if f in s {
        ids := ids + [Value(f)];
      }
    }
  }

  /** The head of a non-empty sequence is one of its elements. */
  lemma HeadIsMember(s: seq<int>)
    requires s != []
    ensures s[0] in s
  {
  }

  /** Two strictly ascending sequences with the same elements are equal. */
  lemma {:induction false} AscendingUnique(a: seq<int>, b: seq<int>)
    requires forall i, j :: 0 <= i < j < |a| ==> a[i] < a[j]
    requires forall i, j :: 0 <= i < j < |b| ==> b[i] < b[j]
    requires forall v :: v in a <==> v in b
    ensures a == b
    decreases |a|
  {
    if a == [] {
      if b != [] {
        HeadIsMember(b);
        assert false;
      }
    } else {
      assert a[0] in b && b != [] && b[0] in a;
      assert a[0] == b[0];
      forall v
        ensures v in a[1..] <==> v in b[1..]
      {
        if v in a[1..] {
          assert v in a && v != a[0];
        }
        if v in b[1..] {
          assert v in b && v != b[0];
        }
      }
      AscendingUnique(a[1..], b[1..]);
    }
  }

  /** The export of a feature set is determined by the set: ids and their order are fixed. */
  lemma IdExportUnique(a: seq<int>, b: seq<int>, s: set<ExperimentalFeature>)
    requires IsIdExport(a, s) && IsIdExport(b, s)
    ensures a == b
  {
    forall v
      ensures v in a <==> v in b
    {
      if v in a {
        var i :| 0 <= i < |a| && a[i] == v;
        assert Value(Declared[v]) == v;
      }
      if v in b {
        var i :| 0 <= i < |b| && b[i] == v;
        assert Value(Declared[v]) == v;
      }
    }
    AscendingUnique(a, b);
  }
}
