/** `_flatten_to_level` (pepclibs/CPUInfo.py:318-334): the partial hierarchies `nodes`, `cores`
    and `cpus` of the CPU geometry are obtained by merging the dicts found at one depth of
    `cpugeom["pkgs"]`, or by concatenating its lists at the bottom. */
module Flattening {
  import opened Lists
  import opened Topology
  import opened Hierarchy

  /** One step of the loop over `items.values()`: a list is appended to `result`, which becomes
      a list if it was still empty; a dict is merged into `result` with `dict.update`. The
      source meets only the shapes `Fits` allows (`StepFits`); the last branch, a dict meeting
      a list, is where Python raises, and only keeps this function total. */
  function Merge(acc: Tree, add: Tree): Tree {
    if add.Leaf? then Leaf((if acc.Leaf? then acc.cpus else []) + add.cpus)
    else if acc.Dict? then Update(acc, add)
    else acc
  }

  /** `_flatten_to_level(t, idx)`. */
  function Flatten(t: Tree, idx: nat): Tree
    decreases t, 1
  {
    if idx == 0 || t.Leaf? then t else FlattenKeys(t, idx, t.keys)
  }

  /** The loop of `_flatten_to_level(t, idx)` over the values of the keys `ks`. */
  function FlattenKeys(t: Tree, idx: nat, ks: seq<nat>): Tree
    requires idx > 0 && t.Dict?
    decreases t, 0, |ks|
  {
    if ks == [] then EmptyDict
    else
      var k := ks[|ks| - 1];
      var add := if k in t.kids then Flatten(t.kids[k], idx - 1) else EmptyDict;
      Merge(FlattenKeys(t, idx, ks[..|ks| - 1]), add)
  }

  /** The items of all dicts at depth `j` below `t` (`t` itself is at depth 0), in the order the
      dicts and their keys are iterated. */
  function Entries(t: Tree, j: nat): seq<(nat, Tree)>
    decreases t, 1
  {
    if t.Leaf? then [] else if j == 0 then Items(t) else EntriesKeys(t, j, t.keys)
  }

  function EntriesKeys(t: Tree, j: nat, ks: seq<nat>): seq<(nat, Tree)>
    requires j > 0 && t.Dict?
    decreases t, 0, |ks|
  {
    if ks == [] then []
    else
      var k := ks[|ks| - 1];
      EntriesKeys(t, j, ks[..|ks| - 1]) + (if k in t.kids then Entries(t.kids[k], j - 1) else [])
  }

  /** All lists at the bottom of `t`, concatenated in iteration order. */
  function Leaves(t: Tree): seq<nat>
    decreases t, 1
  {
    if t.Leaf? then t.cpus else LeavesKeys(t, t.keys)
  }

  function LeavesKeys(t: Tree, ks: seq<nat>): seq<nat>
    requires t.Dict?
    decreases t, 0, |ks|
  {
    if ks == [] then []
    else
      var k := ks[|ks| - 1];
      LeavesKeys(t, ks[..|ks| - 1]) + (if k in t.kids then Leaves(t.kids[k]) else [])
  }

  /** Above the bottom, flattening to depth `idx` gives the dict built from the items of all
      dicts at depth `idx`, in iteration order: keys in order of first occurrence, and for a key
      that occurs under several parents the value met last. */
  lemma FlattenIsFromEntries(t: Tree, depth: nat, idx: nat)
    requires Full(t, depth) && 1 <= idx < depth
    ensures Flatten(t, idx) == FromEntries(Entries(t, idx))
    decreases t, 1
  {
    FlattenKeysEntries(t, depth, idx, t.keys);
  }

  lemma {:induction false} FlattenKeysEntries(t: Tree, depth: nat, idx: nat, ks: seq<nat>)
    requires Full(t, depth) && 1 <= idx < depth
    requires forall k :: k in ks ==> k in t.kids
    ensures FlattenKeys(t, idx, ks) == FromEntries(EntriesKeys(t, idx, ks))
    decreases t, 0, |ks|
  {
    if ks == [] {
      assert FromEntries([]) == EmptyDict;
    } else {
      var init := ks[..|ks| - 1];
      var k := ks[|ks| - 1];
      assert forall j :: j in init ==> j in ks;
      FlattenKeysEntries(t, depth, idx, init);
      var kid := t.kids[k];
      if idx == 1 {
        FromItems(kid);
      } else {
        FlattenIsFromEntries(kid, depth - 1, idx - 1);
      }
      assert Flatten(kid, idx - 1) == FromEntries(Entries(kid, idx - 1));
      UpdateAppend(EntriesKeys(t, idx, init), Entries(kid, idx - 1));
    }
  }

  /** At the bottom, flattening concatenates all lists in iteration order; an empty top-level
      dict stays `{}`. */
  lemma FlattenBottom(t: Tree, depth: nat)
    requires Full(t, depth) && depth >= 1
    ensures Flatten(t, depth) == if t.keys == [] then EmptyDict else Leaf(Leaves(t))
    decreases t, 1
  {
    FlattenKeysBottom(t, depth, t.keys);
  }

  lemma {:induction false} FlattenKeysBottom(t: Tree, depth: nat, ks: seq<nat>)
    requires Full(t, depth) && depth >= 1
    requires forall k :: k in ks ==> k in t.kids
    ensures FlattenKeys(t, depth, ks) == if ks == [] then EmptyDict else Leaf(LeavesKeys(t, ks))
    decreases t, 0, |ks|
  {
    if ks != [] {
      var init := ks[..|ks| - 1];
      var k := ks[|ks| - 1];
      assert forall j :: j in init ==> j in ks;
      FlattenKeysBottom(t, depth, init);
      var kid := t.kids[k];
      if depth > 1 {
        FlattenBottom(kid, depth - 1);
      }
      assert Flatten(kid, depth - 1) == Leaf(Leaves(kid));
      if init == [] {
        assert [] + Leaves(kid) == Leaves(kid);
        assert LeavesKeys(t, init) == [];
      }
    }
  }

  lemma KidFull(t: Tree, depth: nat, k: nat)
    requires Full(t, depth) && depth > 0 && k in t.keys
    ensures k in t.kids && Full(t.kids[k], depth - 1) && NonEmpty(t.kids[k])
  {
  }

  /** The shapes one step of the loop can combine without a Python error: a list is added to
      a list or to the still empty `result` (`dict += list` raises `TypeError` otherwise), and
      a dict only to a dict (`list.update` raises `AttributeError`). */
  predicate Fits(result: Tree, add: Tree) {
    (add.Leaf? ==> result.Leaf? || !NonEmpty(result)) && (add.Dict? ==> result.Dict?)
  }

  /** Above the bottom of a full hierarchy flattening gives a dict. */
  lemma FlattenAboveIsDict(t: Tree, depth: nat, idx: nat)
    requires Full(t, depth) && idx < depth
    ensures Flatten(t, idx).Dict?
  {
    if idx > 0 {
      FlattenIsFromEntries(t, depth, idx);
      FromEntriesShape(Entries(t, idx));
    }
  }

  /** On a full hierarchy every step of the loop of `_flatten_to_level` meets shapes that fit:
      every value is a dict above the bottom and a non-empty list at it. */
  lemma StepFits(t: Tree, depth: nat, idx: nat, i: nat)
    requires Full(t, depth) && 0 < idx <= depth && i < |t.keys|
    ensures t.keys[i] in t.kids
    ensures Fits(FlattenKeys(t, idx, t.keys[..i]), Flatten(t.kids[t.keys[i]], idx - 1))
  {
    KidFull(t, depth, t.keys[i]);
    var kid := t.kids[t.keys[i]];
    var ks := t.keys[..i];
    assert forall k :: k in ks ==> k in t.kids;
    if idx < depth {
      assert Flatten(kid, idx - 1).Dict? by { FlattenAboveIsDict(kid, depth - 1, idx - 1); }
      assert FlattenKeys(t, idx, ks).Dict? by { KeysAboveIsDict(t, depth, idx, ks); }
    } else {
      assert Flatten(kid, idx - 1).Leaf? by { BottomIsList(kid, depth - 1); }
      assert FlattenKeys(t, depth, ks) == EmptyDict || FlattenKeys(t, depth, ks).Leaf? by {
        FlattenKeysBottom(t, depth, ks);
      }
    }
  }

  lemma KeysAboveIsDict(t: Tree, depth: nat, idx: nat, ks: seq<nat>)
    requires Full(t, depth) && 1 <= idx < depth
    requires forall k :: k in ks ==> k in t.kids
    ensures FlattenKeys(t, idx, ks).Dict?
  {
    FlattenKeysEntries(t, depth, idx, ks);
    FromEntriesShape(EntriesKeys(t, idx, ks));
  }

  /** At the bottom of a non-empty full hierarchy flattening gives a list. */
  lemma BottomIsList(t: Tree, depth: nat)
    requires Full(t, depth) && NonEmpty(t)
    ensures Flatten(t, depth).Leaf?
  {
    if depth > 0 {
      FlattenBottom(t, depth);
    }
  }

  /** The loop over the keys `ks` takes one more key. */
  lemma FlattenKeysNext(t: Tree, idx: nat, i: nat)
    requires idx > 0 && t.Dict? && i < |t.keys| && t.keys[i] in t.kids
    ensures FlattenKeys(t, idx, t.keys[..i + 1]) ==
            Merge(FlattenKeys(t, idx, t.keys[..i]), Flatten(t.kids[t.keys[i]], idx - 1))
  {
    assert t.keys[..i + 1][..i] == t.keys[..i];
  }

  /** The body of the loop of `_flatten_to_level`: a list is appended to `result`, turned into
      a list first if it is still empty; a dict is merged into it. */
  method MergeInto(result: Tree, add: Tree) returns (r: Tree)
    requires Fits(result, add)
    ensures r == Merge(result, add)
  {
    r := result;
    if add.Leaf? {
      if !NonEmpty(r) {
        r := Leaf([]);
      }
      r := Leaf(r.cpus + add.cpus);
    } else {
      r := Update(r, add);
    }
  }

  /** `_flatten_to_level(items, idx)` (pepclibs/CPUInfo.py:318-334) on a full hierarchy
      `depth` levels deep, the only kind `get_cpu_geometry` builds (`TreeOfFull`). */
  method FlattenToLevel(items: Tree, idx: nat, ghost depth: nat) returns (r: Tree)
    requires Full(items, depth) && idx <= depth
    ensures r == Flatten(items, idx)
    decreases idx, 1
  {
    if idx == 0 {
      return items;
    }
    r := FlattenValues(items, idx, depth);
  }

  /** The loop of `_flatten_to_level(items, idx)` over `items.values()`, for `idx` > 0. */
  method FlattenValues(items: Tree, idx: nat, ghost depth: nat) returns (r: Tree)
    requires Full(items, depth) && 0 < idx <= depth
    ensures r == Flatten(items, idx)
    decreases idx, 0
  {
    var result := EmptyDict;
    for i := 0 to |items.keys|
      invariant result == FlattenKeys(items, idx, items.keys[..i])
    {
      var k := items.keys[i];
      KidFull(items, depth, k);
      var add := FlattenToLevel(items.kids[k], idx - 1, depth - 1);
      StepFits(items, depth, idx, i);
      result := MergeInto(result, add);
      FlattenKeysNext(items, idx, i);
    }
    assert items.keys[..|items.keys|] == items.keys;
    return result;
  }
}
