/** Grain identity, shared by every component that files things per grain. */
module Grains {
  import opened Text

  /** Serialized state, events and messages. */
  type Bytes = seq<bv8>

  datatype GrainId = GrainId(typeName: string, key: string)

  /** `format!("{}/{}", type_name, key)`: the key of directories, logs, rings and
      call chains. */
  function KeyOf(id: GrainId): string {
    Composite(id.typeName, id.key)
  }

  /** Grains whose type names contain no '/' never share a key. */
  lemma KeyOfInjective(a: GrainId, b: GrainId)
    requires '/' !in a.typeName && '/' !in b.typeName
    ensures KeyOf(a) == KeyOf(b) <==> a == b
  {
    if KeyOf(a) == KeyOf(b) {
      CompositeInjective(a.typeName, a.key, b.typeName, b.key);
    }
  }

  /** A grain shares its key with another one exactly when its type name or its key
      contains a '/'. */
  lemma SharesKeyIffSlash(a: GrainId)
    ensures (exists b :: b != a && KeyOf(b) == KeyOf(a)) <==> '/' in a.typeName || '/' in a.key
  {
    if i :| 0 <= i < |a.typeName| && a.typeName[i] == '/' {
      var b := GrainId(a.typeName[..i], a.typeName[i + 1..] + "/" + a.key);
      assert a.typeName == a.typeName[..i] + "/" + a.typeName[i + 1..];
      assert KeyOf(b) == KeyOf(a) && |b.typeName| < |a.typeName|;
    } else if i :| 0 <= i < |a.key| && a.key[i] == '/' {
      var b := GrainId(a.typeName + "/" + a.key[..i], a.key[i + 1..]);
      assert a.key == a.key[..i] + "/" + a.key[i + 1..];
      assert KeyOf(b) == KeyOf(a) && |b.typeName| > |a.typeName|;
    } else {
      forall b | KeyOf(b) == KeyOf(a)
        ensures b == a
      {
        SlashlessKeyIsUnique(a, b);
      }
    }
  }

  lemma SlashlessKeyIsUnique(a: GrainId, b: GrainId)
    requires '/' !in a.typeName && '/' !in a.key && KeyOf(a) == KeyOf(b)
    ensures a == b
  {
    var s, n := KeyOf(a), |b.typeName|;
    assert s[n] == KeyOf(b)[n] == '/';
    CompositeSplits(a.typeName, a.key, b.typeName, b.key);
  }

  lemma CompositeSplits(t1: string, k1: string, t2: string, k2: string)
    requires Composite(t1, k1) == Composite(t2, k2) && |t1| == |t2|
    ensures t1 == t2 && k1 == k2
  {
    assert t1 == Composite(t1, k1)[..|t1|] && t2 == Composite(t2, k2)[..|t2|];
    assert k1 == Composite(t1, k1)[|t1| + 1..] && k2 == Composite(t2, k2)[|t2| + 1..];
  }
}
