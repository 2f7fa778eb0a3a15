/** Enumerating a repository's keys, as `findAll` does, in an order the model leaves open. */
module Listing {

  /** Every key of `keys` exactly once, in some order. */
  method EnumerateKeys<K(==)>(keys: set<K>) returns (ks: seq<K>)
    ensures |ks| == |keys|
    ensures forall i :: 0 <= i < |ks| ==> ks[i] in keys
    ensures forall k :: k in keys ==> k in ks
    ensures forall i, j :: 0 <= i < j < |ks| ==> ks[i] != ks[j]
  {
    ks := [];
    var rest := keys;
    while rest != {}
      invariant rest <= keys
      invariant |ks| + |rest| == |keys|
      invariant forall i :: 0 <= i < |ks| ==> ks[i] in keys && ks[i] !in rest
      invariant forall k :: k in keys ==> k in rest || k in ks
      invariant forall i, j :: 0 <= i < j < |ks| ==> ks[i] != ks[j]
      decreases |rest|
    {
      var k :| k in rest;
      ks := ks + [k];
      rest := rest - {k};
    }
  }
}
