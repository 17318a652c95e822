/** The nested dictionaries of the CPU geometry (`cpugeom["pkgs"]` and its flattened views) and
    the Python dict operations the geometry code performs on them: item assignment, which keeps a
    present key in place and appends a new one, and `dict.update`. */
module Topology {
  import opened Lists

  /** A value of the geometry: a Python list of CPU numbers at the bottom, or a dict from numbers
      to subtrees whose keys, in insertion order, are `keys`. */
  datatype Tree = Leaf(cpus: seq<nat>) | Dict(keys: seq<nat>, kids: map<nat, Tree>)

  /** `{}`. */
  const EmptyDict: Tree := Dict([], map[])

  /** A dict lists each of its keys once. */
  ghost predicate WellFormed(t: Tree) {
    t.Dict? ==> NoDups(t.keys) && forall k :: k in t.kids <==> k in t.keys
  }

  /** `d[k] = v`. */
  function Put(d: Tree, k: nat, v: Tree): (r: Tree)
    requires d.Dict?
    ensures r.Dict? && k in r.kids && r.kids[k] == v
    ensures forall j :: j != k ==> (j in r.kids <==> j in d.kids)
    ensures forall j :: j != k && j in d.kids ==> r.kids[j] == d.kids[j]
  {
    Dict(if k in d.kids then d.keys else d.keys + [k], d.kids[k := v])
  }

  /** The item assignments `d[k] = v` for the pairs `es`, in order. */
  function PutAll(d: Tree, es: seq<(nat, Tree)>): (r: Tree)
    requires d.Dict?
    ensures r.Dict?
  {
    if es == [] then d
    else
      var e := es[|es| - 1];
      Put(PutAll(d, es[..|es| - 1]), e.0, e.1)
  }

  /** The keys of the pairs `es`. */
  function EntryKeys(es: seq<(nat, Tree)>): (r: seq<nat>)
    ensures |r| == |es| && forall i :: 0 <= i < |es| ==> r[i] == es[i].0
  {
    if es == [] then [] else EntryKeys(es[..|es| - 1]) + [es[|es| - 1].0]
  }

  /** The map the pairs `es` denote when a later pair for a key overrides an earlier one. */
  function ToMap(es: seq<(nat, Tree)>): (r: map<nat, Tree>)
    ensures forall k :: k in r <==> k in EntryKeys(es)
  {
    if es == [] then map[]
    else
      var e := es[|es| - 1];
      ToMap(es[..|es| - 1])[e.0 := e.1]
  }

  /** `d.items()` restricted to the keys `ks`, in the order of `ks`. */
  function ItemsFor(d: Tree, ks: seq<nat>): (r: seq<(nat, Tree)>)
    requires d.Dict?
    ensures EntryKeys(r) == ks
    ensures forall i :: 0 <= i < |r| && r[i].0 in d.kids ==> r[i].1 == d.kids[r[i].0]
  {
    if ks == [] then []
    else
      var k := ks[|ks| - 1];
      ItemsFor(d, ks[..|ks| - 1]) + [(k, if k in d.kids then d.kids[k] else EmptyDict)]
  }

  /** `d.items()`: every key with its value (a well-formed dict has a value for every key). */
  function Items(d: Tree): seq<(nat, Tree)>
    requires d.Dict?
  {
    ItemsFor(d, d.keys)
  }

  /** `acc.update(add)`. */
  function Update(acc: Tree, add: Tree): Tree
    requires acc.Dict? && add.Dict?
  {
    PutAll(acc, Items(add))
  }

  /** The dict built by assigning the pairs `es` to `{}` in order. */
  function FromEntries(es: seq<(nat, Tree)>): Tree {
    PutAll(EmptyDict, es)
  }

  lemma MapUnionUpdate(a: map<nat, Tree>, b: map<nat, Tree>, k: nat, v: Tree)
    ensures (a + b)[k := v] == a + b[k := v]
  {
  }

  /** One item assignment on a well-formed dict. */
  lemma PutShape(d: Tree, k: nat, v: Tree)
    requires d.Dict? && WellFormed(d)
    ensures WellFormed(Put(d, k, v))
    ensures Put(d, k, v).keys == if k in d.keys then d.keys else d.keys + [k]
  {
    if k !in d.keys {
      var ks := d.keys + [k];
      forall i, j | 0 <= i < j < |ks| ensures ks[i] != ks[j] {
        if j == |ks| - 1 {
          assert ks[i] in d.keys;
        } else {
          assert d.keys[i] != d.keys[j];
        }
      }
    }
  }

  /** Item assignments keep a dict well formed; the keys are the old keys followed by the new
      ones in the order of their first assignment, and each value is the last one assigned. */
  lemma {:induction false} PutAllShape(d: Tree, es: seq<(nat, Tree)>)
    requires d.Dict? && WellFormed(d)
    ensures WellFormed(PutAll(d, es))
    ensures PutAll(d, es).keys == Dedup(d.keys + EntryKeys(es))
    ensures PutAll(d, es).kids == d.kids + ToMap(es)
  {
    if es == [] {
      assert d.keys + EntryKeys(es) == d.keys;
      DedupOfNoDups(d.keys);
    } else {
      var init := es[..|es| - 1];
      var e := es[|es| - 1];
      PutAllShape(d, init);
      var r0 := PutAll(d, init);
      var x := d.keys + EntryKeys(init);
      assert EntryKeys(es) == EntryKeys(init) + [e.0];
      assert d.keys + EntryKeys(es) == x + [e.0];
      DedupSnoc(x, e.0);
      PutShape(r0, e.0, e.1);
      MapUnionUpdate(d.kids, ToMap(init), e.0, e.1);
    }
  }

  lemma {:induction false} ToMapItemsFor(d: Tree, ks: seq<nat>)
    requires d.Dict? && forall k :: k in ks ==> k in d.kids
    ensures ToMap(ItemsFor(d, ks)) == map k | k in ks :: d.kids[k]
  {
    if ks != [] {
      var n := |ks| - 1;
      var init := ks[..n];
      var last := ks[n];
      assert ks == init + [last];
      assert forall k :: k in init ==> k in ks;
      ToMapItemsFor(d, init);
      assert ToMap(ItemsFor(d, ks)) == ToMap(ItemsFor(d, init))[last := d.kids[last]] by {
        var its := ItemsFor(d, ks);
        assert its == ItemsFor(d, init) + [(last, d.kids[last])];
        assert its[..n] == ItemsFor(d, init);
      }
      MapComprehensionSnoc(d, init, last);
    }
  }

  lemma MapComprehensionSnoc(d: Tree, init: seq<nat>, last: nat)
    requires d.Dict? && last in d.kids && forall k :: k in init ==> k in d.kids
    ensures (map k | k in init :: d.kids[k])[last := d.kids[last]] == map k | k in init + [last] :: d.kids[k]
  {
  }

  /** Listing a dict's items and assigning them again gives back its map. */
  lemma ToMapItems(d: Tree)
    requires d.Dict? && WellFormed(d)
    ensures ToMap(Items(d)) == d.kids
  {
    ToMapItemsFor(d, d.keys);
  }

  /** The dict built from `es` is well formed, holds the keys of `es` once each in order of
      first occurrence, and the map they denote. */
  lemma FromEntriesShape(es: seq<(nat, Tree)>)
    ensures FromEntries(es).Dict? && WellFormed(FromEntries(es))
    ensures FromEntries(es).keys == Dedup(EntryKeys(es))
    ensures FromEntries(es).kids == ToMap(es)
  {
    PutAllShape(EmptyDict, es);
    assert EmptyDict.keys + EntryKeys(es) == EntryKeys(es);
    EmptyUnion(ToMap(es));
  }

  lemma EmptyUnion(m: map<nat, Tree>)
    ensures EmptyDict.kids + m == m
  {
  }

  /** A well-formed dict is rebuilt exactly by assigning its items to `{}`. */
  lemma FromItems(d: Tree)
    requires d.Dict? && WellFormed(d)
    ensures FromEntries(Items(d)) == d
  {
    var f := FromEntries(Items(d));
    assert f.Dict? && f.keys == Dedup(d.keys) && f.kids == ToMap(Items(d)) by {
      FromEntriesShape(Items(d));
    }
    assert Dedup(d.keys) == d.keys by { DedupOfNoDups(d.keys); }
    assert ToMap(Items(d)) == d.kids by { ToMapItems(d); }
  }

  lemma {:induction false} PutAllAppend(d: Tree, a: seq<(nat, Tree)>, b: seq<(nat, Tree)>)
    requires d.Dict?
    ensures PutAll(d, a + b) == PutAll(PutAll(d, a), b)
    decreases |b|
  {
    if b == [] {
      assert a + b == a;
    } else {
      PutAllAppend(d, a, b[..|b| - 1]);
      assert (a + b)[..|a + b| - 1] == a + b[..|b| - 1];
    }
  }

  /** `acc.update(FromEntries(es))` is the same as assigning the pairs `es` to `acc` one by one. */
  lemma UpdateFromEntries(acc: Tree, es: seq<(nat, Tree)>)
    requires acc.Dict? && WellFormed(acc)
    ensures WellFormed(FromEntries(es))
    ensures Update(acc, FromEntries(es)) == PutAll(acc, es)
  {
    var f := FromEntries(es);
    var ek := EntryKeys(es);
    assert WellFormed(f) && f.keys == Dedup(ek) && f.kids == ToMap(es) by { FromEntriesShape(es); }
    var lhs := Update(acc, f);
    assert lhs.keys == Dedup(acc.keys + Dedup(ek)) && lhs.kids == acc.kids + ToMap(es) by {
      assert EntryKeys(Items(f)) == f.keys;
      ToMapItems(f);
      PutAllShape(acc, Items(f));
    }
    var rhs := PutAll(acc, es);
    assert rhs.keys == Dedup(acc.keys + ek) && rhs.kids == acc.kids + ToMap(es) by {
      PutAllShape(acc, es);
    }
    DedupOfDedup(acc.keys, ek);
  }

  /** Merging two dicts built from pair lists gives the dict of the concatenated list. */
  lemma UpdateAppend(a: seq<(nat, Tree)>, b: seq<(nat, Tree)>)
    ensures WellFormed(FromEntries(a)) && WellFormed(FromEntries(b))
    ensures Update(FromEntries(a), FromEntries(b)) == FromEntries(a + b)
  {
    PutAllShape(EmptyDict, a);
    UpdateFromEntries(FromEntries(a), b);
    PutAllAppend(EmptyDict, a, b);
  }

  /** In the dict built from `es`, each key appears once, in the order of first occurrence, and
      maps to the value of the last pair with that key. */
  lemma FromEntriesSpec(es: seq<(nat, Tree)>, k: nat)
    ensures FromEntries(es).keys == Dedup(EntryKeys(es))
    ensures k in FromEntries(es).kids <==> exists i :: 0 <= i < |es| && es[i].0 == k
    ensures k in FromEntries(es).kids ==>
              exists i :: 0 <= i < |es| && es[i].0 == k && FromEntries(es).kids[k] == es[i].1 &&
                          forall j :: i < j < |es| ==> es[j].0 != k
  {
    PutAllShape(EmptyDict, es);
    assert [] + EntryKeys(es) == EntryKeys(es);
    ToMapLast(es, k);
  }

  lemma {:induction false} ToMapLast(es: seq<(nat, Tree)>, k: nat)
    ensures k in ToMap(es) <==> exists i :: 0 <= i < |es| && es[i].0 == k
    ensures k in ToMap(es) ==>
              exists i :: 0 <= i < |es| && es[i].0 == k && ToMap(es)[k] == es[i].1 &&
                          forall j :: i < j < |es| ==> es[j].0 != k
  {
    if es != [] {
      var n := |es| - 1;
      var init := es[..n];
      ToMapLast(init, k);
      assert ToMap(es) == ToMap(init)[es[n].0 := es[n].1];
      if es[n].0 == k {
        assert ToMap(es)[k] == es[n].1;
      } else if k in ToMap(init) {
        var i :| 0 <= i < n && init[i].0 == k && ToMap(init)[k] == init[i].1 &&
                 forall j :: i < j < n ==> init[j].0 != k;
        LastInSnoc(init, es[n], i, k);
      } else {
        NoneInSnoc(init, es[n], k);
      }
    }
  }

  lemma LastInSnoc(init: seq<(nat, Tree)>, e: (nat, Tree), i: nat, k: nat)
    requires i < |init| && init[i].0 == k && e.0 != k
    requires forall j :: i < j < |init| ==> init[j].0 != k
    ensures (init + [e])[i] == init[i]
    ensures forall j :: i < j < |init + [e]| ==> (init + [e])[j].0 != k
  {
  }

  lemma NoneInSnoc(init: seq<(nat, Tree)>, e: (nat, Tree), k: nat)
    requires e.0 != k && !exists i :: 0 <= i < |init| && init[i].0 == k
    ensures !exists i :: 0 <= i < |init + [e]| && (init + [e])[i].0 == k
  {
    forall i | 0 <= i < |init + [e]| ensures (init + [e])[i].0 != k {
      if i < |init| {
        assert (init + [e])[i] == init[i];
      }
    }
  }
}
