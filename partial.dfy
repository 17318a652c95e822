/** What the partial hierarchies of the CPU geometry contain, in terms of the `lscpu` lines:
    the keys found at each depth of `cpugeom["pkgs"]` are the numbers of that level, and the
    lists at its bottom hold every online CPU once per line. */
module PartialHierarchy {
  import opened Lists
  import opened Lscpu
  import opened Levels
  import opened Topology
  import opened Hierarchy
  import opened Flattening

  /** The level at depth `d` of the hierarchy: packages at depth 0, CPUs at depth 3. */
  function LevelAt(d: nat): (lvl: Level)
    requires d < 4
    ensures Index(lvl) == d
  {
    if d == 0 then Pkg else if d == 1 then Node else if d == 2 then Core else Cpu
  }

  lemma CoordPath(l: Line, d: nat)
    requires l.Online? && d < 3
    ensures Coord(l, LevelAt(d)) == Path(l)[d]
  {
  }

  lemma {:induction false} InEntriesKeys(t: Tree, j: nat, ks: seq<nat>, e: (nat, Tree))
    requires j > 0 && t.Dict?
    ensures e in EntriesKeys(t, j, ks) <==>
            exists k :: k in ks && k in t.kids && e in Entries(t.kids[k], j - 1)
  {
    if ks != [] {
      InEntriesKeys(t, j, ks[..|ks| - 1], e);
    }
  }

  lemma PrefixOfPrefix(p: seq<nat>, pfx: seq<nat>, pk: seq<nat>, k: nat)
    requires pk == pfx + [k] && |pk| <= |p| && p[..|pk|] == pk
    ensures p[..|pfx|] == pfx && p[|pfx|] == k
  {
    assert p[..|pfx|] == p[..|pk|][..|pfx|];
  }

  /** The hierarchy of any lines is `Full` to depth 3. */
  lemma TreeOfFull(lines: seq<Line>)
    ensures Full(TreeOf(lines), 3) && Shaped(TreeOf(lines), 3)
  {
    var top: seq<nat> := [];
    SubTreeFull(lines, top);
    assert 3 - |top| == 3;
    FullIsShaped(TreeOf(lines), 3);
  }

  /** The subtree under a path shorter than 3 is a dict from the numbers one level below, in
      order of first occurrence, to their subtrees. */
  lemma SubTreeDict(lines: seq<Line>, pfx: seq<nat>)
    requires |pfx| < 3
    ensures SubTree(lines, pfx).Dict?
    ensures SubTree(lines, pfx).keys == Dedup(KidsUnder(lines, pfx))
    ensures forall k :: k in SubTree(lines, pfx).kids <==> k in KidsUnder(lines, pfx)
    ensures forall k :: k in SubTree(lines, pfx).kids ==>
              SubTree(lines, pfx).kids[k] == SubTree(lines, pfx + [k])
  {
  }

  /** An item of the subtree under `pfx` is a number one level below and its subtree. */
  lemma ItemSound(lines: seq<Line>, pfx: seq<nat>, e: (nat, Tree))
    requires |pfx| < 3 && e in Items(SubTree(lines, pfx))
    ensures pfx + [e.0] in Prefixes(lines, |pfx| + 1) && e.1 == SubTree(lines, pfx + [e.0])
  {
    var t := SubTree(lines, pfx);
    SubTreeDict(lines, pfx);
    var its := Items(t);
    var i :| 0 <= i < |its| && its[i] == e;
    assert EntryKeys(its)[i] == e.0;
    assert e.0 in t.kids;
    InKidsUnder(lines, pfx, e.0);
    InPrefixes(lines, pfx + [e.0]);
  }

  /** Every item of a dict at depth `j` below the subtree under `pfx` is a number and its
      subtree, for a path of length `|pfx| + j + 1` that an online line has and that extends
      `pfx`. */
  lemma {:induction false} EntrySound(lines: seq<Line>, pfx: seq<nat>, j: nat, e: (nat, Tree))
    requires |pfx| + j < 3 && e in Entries(SubTree(lines, pfx), j)
    ensures exists p :: p in Prefixes(lines, |pfx| + j + 1) && p[..|pfx|] == pfx &&
                        e == (p[|pfx| + j], SubTree(lines, p))
    decreases j
  {
    var t := SubTree(lines, pfx);
    SubTreeDict(lines, pfx);
    if j == 0 {
      ItemSound(lines, pfx, e);
      var p := pfx + [e.0];
      assert p[..|pfx|] == pfx && p[|pfx|] == e.0;
    } else {
      InEntriesKeys(t, j, t.keys, e);
      var k :| k in t.keys && k in t.kids && e in Entries(t.kids[k], j - 1);
      var pk := pfx + [k];
      EntrySound(lines, pk, j - 1, e);
      var p :| p in Prefixes(lines, |pk| + (j - 1) + 1) && p[..|pk|] == pk &&
               e == (p[|pk| + (j - 1)], SubTree(lines, p));
      PrefixOfPrefix(p, pfx, pk, k);
      var n := |pfx| + j;
      assert |pk| + (j - 1) == n;
      assert p in Prefixes(lines, n + 1);
      assert e == (p[n], SubTree(lines, p));
    }
  }

  /** A path that an online line has, cut one level deeper than `pfx`, gives a number one level
      below `pfx`. */
  lemma KidOfPrefix(lines: seq<Line>, pfx: seq<nat>, p: seq<nat>)
    requires |pfx| < |p| <= 3 && p in Prefixes(lines, |p|) && p[..|pfx|] == pfx
    ensures p[|pfx|] in SubTree(lines, pfx).keys
    ensures p[..|pfx| + 1] == pfx + [p[|pfx|]]
  {
    var k := p[|pfx|];
    var q := p[..|pfx| + 1];
    assert q == pfx + [k];
    InPrefixes(lines, p);
    var i :| 0 <= i < |lines| && Matches(lines[i], p);
    assert Path(lines[i])[..|q|] == Path(lines[i])[..|p|][..|q|];
    assert Matches(lines[i], q);
    InKidsUnder(lines, pfx, k);
    SubTreeDict(lines, pfx);
  }

  /** Conversely, every such path gives an item at depth `j`. */
  lemma {:induction false} EntryComplete(lines: seq<Line>, pfx: seq<nat>, j: nat, p: seq<nat>)
    requires |pfx| + j < 3 && |p| == |pfx| + j + 1 && p in Prefixes(lines, |p|) && p[..|pfx|] == pfx
    ensures (p[|pfx| + j], SubTree(lines, p)) in Entries(SubTree(lines, pfx), j)
    decreases j
  {
    var k := p[|pfx|];
    var q := p[..|pfx| + 1];
    var e := (p[|pfx| + j], SubTree(lines, p));
    assert k in SubTree(lines, pfx).keys && q == pfx + [k] by { KidOfPrefix(lines, pfx, p); }
    if j == 0 {
      LastItemComplete(lines, pfx, p);
    } else {
      assert e in Entries(SubTree(lines, q), j - 1) by {
        assert |q| == |pfx| + 1 && p[..|q|] == q;
        EntryComplete(lines, q, j - 1, p);
      }
      EntryOfKid(lines, pfx, j, k, e);
    }
  }

  /** An item at depth `j - 1` under a number one level below `pfx` is an item at depth `j`
      under `pfx`. */
  lemma EntryOfKid(lines: seq<Line>, pfx: seq<nat>, j: nat, k: nat, e: (nat, Tree))
    requires 0 < j && |pfx| + j < 3 && k in SubTree(lines, pfx).keys
    requires e in Entries(SubTree(lines, pfx + [k]), j - 1)
    ensures e in Entries(SubTree(lines, pfx), j)
  {
    var t := SubTree(lines, pfx);
    SubTreeDict(lines, pfx);
    InEntriesKeys(t, j, t.keys, e);
  }

  /** A path one level longer than `pfx` that extends it gives an item of the subtree under
      `pfx`. */
  lemma LastItemComplete(lines: seq<Line>, pfx: seq<nat>, p: seq<nat>)
    requires |pfx| < 3 && |p| == |pfx| + 1 && p in Prefixes(lines, |p|) && p[..|pfx|] == pfx
    ensures (p[|pfx|], SubTree(lines, p)) in Entries(SubTree(lines, pfx), 0)
  {
    var k := p[|pfx|];
    KidOfPrefix(lines, pfx, p);
    assert p == pfx + [k] by { assert p == p[..|pfx| + 1]; }
    ItemComplete(lines, pfx, k);
  }

  /** A number one level below `pfx` gives an item of the subtree under `pfx`. */
  lemma ItemComplete(lines: seq<Line>, pfx: seq<nat>, k: nat)
    requires |pfx| < 3 && k in SubTree(lines, pfx).keys
    ensures (k, SubTree(lines, pfx + [k])) in Items(SubTree(lines, pfx))
  {
    var t := SubTree(lines, pfx);
    SubTreeDict(lines, pfx);
    var its := Items(t);
    var m :| 0 <= m < |t.keys| && t.keys[m] == k;
    assert EntryKeys(its)[m] == k;
    assert its[m] == (k, SubTree(lines, pfx + [k]));
  }

  /** At the top: an item at depth `j` of the hierarchy is a number and the subtree under a
      path of length `j + 1` that an online line has and that ends in it. */
  lemma TopEntrySound(lines: seq<Line>, j: nat, e: (nat, Tree))
    requires j < 3 && e in Entries(TreeOf(lines), j)
    ensures exists p :: p in Prefixes(lines, j + 1) && e == (p[j], SubTree(lines, p))
  {
    var top: seq<nat> := [];
    EntrySound(lines, top, j, e);
    var p :| p in Prefixes(lines, |top| + j + 1) && p[..|top|] == top &&
             e == (p[|top| + j], SubTree(lines, p));
    assert |top| + j == j;
    assert p in Prefixes(lines, j + 1);
    assert e == (p[j], SubTree(lines, p));
  }

  lemma TopEntryComplete(lines: seq<Line>, j: nat, p: seq<nat>)
    requires j < 3 && p in Prefixes(lines, j + 1)
    ensures (p[j], SubTree(lines, p)) in Entries(TreeOf(lines), j)
  {
    var top: seq<nat> := [];
    assert |top| + j == j;
    assert p[..0] == top;
    EntryComplete(lines, top, j, p);
  }

  lemma LevelKeySound(lines: seq<Line>, j: nat, x: nat)
    requires j < 3 && x in EntryKeys(Entries(TreeOf(lines), j))
    ensures x in Column(lines, LevelAt(j))
  {
    var es := Entries(TreeOf(lines), j);
    var k :| 0 <= k < |es| && EntryKeys(es)[k] == x;
    assert es[k] in es;
    TopEntrySound(lines, j, es[k]);
    var p :| p in Prefixes(lines, j + 1) && es[k] == (p[j], SubTree(lines, p));
    InPrefixes(lines, p);
    var i :| 0 <= i < |lines| && Matches(lines[i], p);
    CoordPath(lines[i], j);
    assert Path(lines[i])[j] == p[j];
    InColumn(lines, LevelAt(j), x);
  }

  lemma LevelKeyComplete(lines: seq<Line>, j: nat, x: nat)
    requires j < 3 && x in Column(lines, LevelAt(j))
    ensures x in EntryKeys(Entries(TreeOf(lines), j))
  {
    var es := Entries(TreeOf(lines), j);
    InColumn(lines, LevelAt(j), x);
    var i :| 0 <= i < |lines| && lines[i].Online? && Coord(lines[i], LevelAt(j)) == x;
    CoordPath(lines[i], j);
    var p := Path(lines[i])[..j + 1];
    assert Matches(lines[i], p);
    InPrefixes(lines, p);
    TopEntryComplete(lines, j, p);
    KeyOfEntry(es, (p[j], SubTree(lines, p)));
  }

  lemma KeyOfEntry(es: seq<(nat, Tree)>, e: (nat, Tree))
    requires e in es
    ensures e.0 in EntryKeys(es)
  {
    var k :| 0 <= k < |es| && es[k] == e;
    assert EntryKeys(es)[k] == e.0;
  }

  /** The keys of all dicts at depth `j` of the hierarchy are the numbers of level `j` of the
      online lines. */
  lemma LevelKeysOfTree(lines: seq<Line>, j: nat, x: nat)
    requires j < 3
    ensures x in EntryKeys(Entries(TreeOf(lines), j)) <==> x in Column(lines, LevelAt(j))
  {
    if x in EntryKeys(Entries(TreeOf(lines), j)) {
      LevelKeySound(lines, j, x);
    }
    if x in Column(lines, LevelAt(j)) {
      LevelKeyComplete(lines, j, x);
    }
  }

  /** `cpugeom["pkgs"]` (`j` = 0), `cpugeom["nodes"]` (`j` = 1) and `cpugeom["cores"]` (`j` = 2)
      are dicts whose keys are the level's numbers of the online lines, each once, in order of
      first appearance in the hierarchy. */
  lemma FlattenedKeys(lines: seq<Line>, j: nat)
    requires j < 3
    ensures Flatten(TreeOf(lines), j).Dict? && NoDups(Flatten(TreeOf(lines), j).keys)
    ensures forall x :: x in Flatten(TreeOf(lines), j).keys <==> x in Column(lines, LevelAt(j))
  {
    var t := TreeOf(lines);
    TreeOfFull(lines);
    forall x ensures x in EntryKeys(Entries(t, j)) <==> x in Column(lines, LevelAt(j)) {
      LevelKeysOfTree(lines, j, x);
    }
    if j > 0 {
      FlattenIsFromEntries(t, 3, j);
      FromEntriesSpec(Entries(t, j), 0);
    } else {
      assert EntryKeys(Items(t)) == t.keys;
    }
  }

  /** The subtree a flattened dict keeps for a key is the subtree of one of the paths of that
      key's level that end in it. */
  lemma FlattenedValue(lines: seq<Line>, j: nat, x: nat)
    requires 1 <= j < 3
    ensures Flatten(TreeOf(lines), j).Dict?
    ensures x in Flatten(TreeOf(lines), j).kids ==>
              exists p :: p in Prefixes(lines, j + 1) && p[j] == x &&
                          Flatten(TreeOf(lines), j).kids[x] == SubTree(lines, p)
  {
    var t := TreeOf(lines);
    var es := Entries(t, j);
    TreeOfFull(lines);
    FlattenIsFromEntries(t, 3, j);
    FromEntriesSpec(es, x);
    if x in Flatten(t, j).kids {
      var i :| 0 <= i < |es| && es[i].0 == x && FromEntries(es).kids[x] == es[i].1 &&
               forall m :: i < m < |es| ==> es[m].0 != x;
      assert es[i] in es;
      TopEntrySound(lines, j, es[i]);
    }
  }

  // ----- the lists at the bottom -----

  /** The CPU numbers of the lines under `pfx` whose next number is one of `ks`, in input order. */
  function CpusWhere(lines: seq<Line>, pfx: seq<nat>, ks: seq<nat>): seq<nat>
    requires |pfx| < 3
  {
    if lines == [] then []
    else
      var l := lines[|lines| - 1];
      CpusWhere(lines[..|lines| - 1], pfx, ks) +
        (if Matches(l, pfx) && Path(l)[|pfx|] in ks then [l.cpu] else [])
  }

  lemma {:induction false} CpusWhereNone(lines: seq<Line>, pfx: seq<nat>)
    requires |pfx| < 3
    ensures CpusWhere(lines, pfx, []) == []
  {
    if lines != [] {
      CpusWhereNone(lines[..|lines| - 1], pfx);
    }
  }

  lemma {:induction false} CpusWhereSnoc(lines: seq<Line>, pfx: seq<nat>, ks: seq<nat>, k: nat)
    requires |pfx| < 3 && k !in ks
    ensures multiset(CpusWhere(lines, pfx, ks + [k])) ==
            multiset(CpusWhere(lines, pfx, ks)) + multiset(CpusUnder(lines, pfx + [k]))
  {
    if lines != [] {
      var n := |lines| - 1;
      CpusWhereSnoc(lines[..n], pfx, ks, k);
      MatchesExtend(lines[n], pfx, k);
    }
  }

  lemma {:induction false} CpusWhereAll(lines: seq<Line>, pfx: seq<nat>, ks: seq<nat>)
    requires |pfx| < 3 && forall k :: k in KidsUnder(lines, pfx) ==> k in ks
    ensures CpusWhere(lines, pfx, ks) == CpusUnder(lines, pfx)
  {
    if lines != [] {
      var n := |lines| - 1;
      assert forall k :: k in KidsUnder(lines[..n], pfx) ==> k in KidsUnder(lines, pfx);
      CpusWhereAll(lines[..n], pfx, ks);
    }
  }

  /** The lists below the subtree under `pfx` hold, all together, the CPUs of the lines under
      `pfx`, each as often as it occurs. */
  lemma {:induction false} LeavesSubTree(lines: seq<Line>, pfx: seq<nat>)
    requires |pfx| <= 3
    ensures multiset(Leaves(SubTree(lines, pfx))) == multiset(CpusUnder(lines, pfx))
    decreases 3 - |pfx|, 1
  {
    if |pfx| < 3 {
      var t := SubTree(lines, pfx);
      LeavesKeysSubTree(lines, pfx, t.keys);
      CpusWhereAll(lines, pfx, t.keys);
    }
  }

  lemma {:induction false} LeavesKeysSubTree(lines: seq<Line>, pfx: seq<nat>, ks: seq<nat>)
    requires |pfx| < 3 && NoDups(ks) && forall k :: k in ks ==> k in SubTree(lines, pfx).kids
    ensures multiset(LeavesKeys(SubTree(lines, pfx), ks)) == multiset(CpusWhere(lines, pfx, ks))
    decreases 3 - |pfx|, 0, |ks|
  {
    if ks == [] {
      CpusWhereNone(lines, pfx);
    } else {
      var n := |ks| - 1;
      var init := ks[..n];
      var k := ks[n];
      assert ks == init + [k];
      assert forall i :: 0 <= i < n ==> init[i] == ks[i];
      assert k !in init;
      LeavesKeysSubTree(lines, pfx, init);
      LeavesSubTree(lines, pfx + [k]);
      CpusWhereSnoc(lines, pfx, init, k);
    }
  }

  lemma {:induction false} CpusUnderAll(lines: seq<Line>)
    ensures CpusUnder(lines, []) == Column(lines, Cpu)
  {
    if lines != [] {
      CpusUnderAll(lines[..|lines| - 1]);
    }
  }

  lemma {:induction false} OnlineCountColumn(lines: seq<Line>, lvl: Level)
    ensures OnlineCount(lines) == |Column(lines, lvl)|
  {
    if lines != [] {
      OnlineCountColumn(lines[..|lines| - 1], lvl);
    }
  }

  /** The lists at the bottom of the hierarchy hold every online CPU once per line. */
  lemma TopLeaves(lines: seq<Line>)
    ensures multiset(Leaves(TreeOf(lines))) == multiset(Column(lines, Cpu))
  {
    var top: seq<nat> := [];
    LeavesSubTree(lines, top);
    CpusUnderAll(lines);
  }

  /** `cpugeom["cpus"]` is `{}` when no CPU is online, and otherwise a list holding every online
      CPU once per line. */
  lemma FlattenedCpus(lines: seq<Line>)
    ensures Flatten(TreeOf(lines), 3) == EmptyDict <==> Column(lines, Cpu) == []
    ensures Flatten(TreeOf(lines), 3) != EmptyDict ==>
              Flatten(TreeOf(lines), 3).Leaf? &&
              multiset(Flatten(TreeOf(lines), 3).cpus) == multiset(Column(lines, Cpu))
  {
    var t := TreeOf(lines);
    TreeOfFull(lines);
    FlattenBottom(t, 3);
    TopLeaves(lines);
    FlattenedKeys(lines, 0);
    OnlineCountColumn(lines, Cpu);
    OnlineCountColumn(lines, Pkg);
    if t.keys != [] {
      assert t.keys[0] in Column(lines, Pkg);
    }
  }

  lemma PkgsSnoc(lines: seq<Line>, l: Line)
    ensures KidsUnder(lines + [l], []) == KidsUnder(lines, []) + (if l.Online? then [l.pkg] else [])
    ensures Prefixes(lines + [l], 1) == Prefixes(lines, 1) + (if l.Online? then {[l.pkg]} else {})
  {
    var all := lines + [l];
    assert all[..|all| - 1] == lines;
    if l.Online? {
      assert Path(l)[..0] == [] && Path(l)[..1] == [l.pkg];
    }
  }

  /** One more package adds a path exactly when it adds a new key. */
  lemma CountStep(ps: set<seq<nat>>, ks: seq<nat>, x: nat)
    requires |ps| == |Dedup(ks)| && ([x] in ps <==> x in ks)
    ensures |ps + {[x]}| == |Dedup(ks + [x])|
  {
    DedupSnoc(ks, x);
    if x in ks {
      assert ps + {[x]} == ps;
    } else {
      assert |ps + {[x]}| == |ps| + 1;
    }
  }

  /** A package number is a key of the hierarchy exactly when it is a path of length one. */
  lemma PkgKey(lines: seq<Line>, x: nat)
    ensures [x] in Prefixes(lines, 1) <==> x in KidsUnder(lines, [])
  {
    InPrefixes(lines, [x]);
    InKidsUnder(lines, [], x);
    assert [] + [x] == [x];
  }

  lemma {:induction false} PkgCountKids(lines: seq<Line>)
    ensures |Prefixes(lines, 1)| == |Dedup(KidsUnder(lines, []))|
  {
    if lines != [] {
      var n := |lines| - 1;
      var init := lines[..n];
      var l := lines[n];
      assert lines == init + [l];
      PkgCountKids(init);
      PkgsSnoc(init, l);
      if l.Online? {
        PkgKey(init, l.pkg);
        CountStep(Prefixes(init, 1), KidsUnder(init, []), l.pkg);
      } else {
        assert Prefixes(lines, 1) == Prefixes(init, 1);
        assert KidsUnder(lines, []) == KidsUnder(init, []);
      }
    }
  }

  /** `pkgcnt` is the number of packages in the hierarchy. */
  lemma PkgCount(lines: seq<Line>)
    ensures CountsOf(lines)[0] == |TreeOf(lines).keys|
  {
    PkgCountKids(lines);
  }

  /** `cpucnt` is the number of CPUs in the lists at the bottom of the hierarchy. */
  lemma CpuCount(lines: seq<Line>)
    ensures CountsOf(lines)[3] == |Leaves(TreeOf(lines))|
  {
    TopLeaves(lines);
    OnlineCountColumn(lines, Cpu);
    assert |multiset(Leaves(TreeOf(lines)))| == |multiset(Column(lines, Cpu))|;
  }
}
