/** A registry of named items (the MVT and cluster registries), kept in a
    dict that register updates in place. A Python dict remembers the order in
    which its keys were first inserted, which is the order items() lists. */
module Registry {

  /** registry.Registry: the dict, as its map and its key order. */
  class Registry<V> {
    var registry: map<string, V>
    var names: seq<string>

    /** The key order lists every key once. */
    ghost predicate Valid()
      reads this
    {
      && (forall n :: n in registry <==> n in names)
      && (forall i, j :: 0 <= i < j < |names| ==> names[i] != names[j])
    }

    /** A new registry is empty. */
    constructor ()
      ensures Valid()
      ensures registry == map[] && names == []
    {
      registry := map[];
      names := [];
    }

    /** register(name, item): name now maps to item and every other name keeps
        its item; a new name goes to the end of the order, a known name keeps
        its place. */
    method Register(name: string, item: V)
      requires Valid()
      modifies this
      ensures Valid()
      ensures registry == old(registry)[name := item]
      ensures names == if name in old(registry) then old(names) else old(names) + [name]
    {
      if name !in registry {
        names := names + [name];
      }
      registry := registry[name := item];
    }

    /** items(): the (name, item) pairs in key order, every name once. */
    function Items(): (r: seq<(string, V)>)
      requires Valid()
      reads this
      ensures |r| == |registry.Keys|
      ensures forall i :: 0 <= i < |r| ==> r[i].0 in registry && registry[r[i].0] == r[i].1
      ensures forall n :: n in registry ==> exists i :: 0 <= i < |r| && r[i].0 == n
      ensures forall i, j :: 0 <= i < j < |r| ==> r[i].0 != r[j].0
    {
      DistinctCount(names, registry.Keys);
      var ns, m := names, registry;
      var r := seq(|ns|, i requires 0 <= i < |ns| && ns[i] in m => (ns[i], m[ns[i]]));
      assert forall n :: n in registry ==> exists i :: 0 <= i < |r| && r[i].0 == n by {
        forall n | n in registry
          ensures exists i :: 0 <= i < |r| && r[i].0 == n
        {
          var i :| 0 <= i < |names| && names[i] == n;
          assert r[i].0 == n;
        }
      }
      r
    }
  }

  /** A sequence without repeats that lists exactly a set is as long as the set. */
  lemma {:induction false} DistinctCount(xs: seq<string>, keys: set<string>)
    requires forall n :: n in keys <==> n in xs
    requires forall i, j :: 0 <= i < j < |xs| ==> xs[i] != xs[j]
    ensures |xs| == |keys|
  {
    if xs != [] {
      var last := xs[|xs| - 1];
      var init := xs[..|xs| - 1];
      assert forall n :: n in init ==> n in xs && n != last;
      assert forall n :: n in keys - {last} <==> n in init by {
        forall n
          ensures n in keys - {last} <==> n in init
        {
          if n in xs && n != last {
            var i :| 0 <= i < |xs| && xs[i] == n;
            assert i < |xs| - 1 && init[i] == n;
          }
        }
      }
      DistinctCount(init, keys - {last});
    }
  }
}
