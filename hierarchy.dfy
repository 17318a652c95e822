/** The full hierarchy `cpugeom["pkgs"]` (package -> node -> core -> list of CPUs) that
    `get_cpu_geometry` builds with `_add_nums` (pepclibs/CPUInfo.py:294-316), and its counters
    `pkgcnt`, `nodecnt`, `corecnt` and `cpucnt`. */
module Hierarchy {
  import opened Lists
  import opened Lscpu
  import opened Topology

  /** The package, node and core numbers of an online line: its place in the hierarchy. */
  function Path(l: Line): (p: seq<nat>)
    requires l.Online?
    ensures |p| == 3
  {
    [l.pkg, l.node, l.core]
  }

  /** The line is online and its path starts with `pfx`. */
  predicate Matches(l: Line, pfx: seq<nat>) {
    l.Online? && |pfx| <= 3 && Path(l)[..|pfx|] == pfx
  }

  lemma MatchesExtend(l: Line, pfx: seq<nat>, k: nat)
    requires |pfx| < 3
    ensures Matches(l, pfx + [k]) <==> Matches(l, pfx) && Path(l)[|pfx|] == k
  {
    if l.Online? {
      assert Path(l)[..|pfx| + 1] == Path(l)[..|pfx|] + [Path(l)[|pfx|]];
    }
  }

  /** The numbers one level below `pfx` of the lines under `pfx`, in input order. */
  function KidsUnder(lines: seq<Line>, pfx: seq<nat>): seq<nat>
    requires |pfx| < 3
  {
    if lines == [] then []
    else
      var l := lines[|lines| - 1];
      KidsUnder(lines[..|lines| - 1], pfx) + (if Matches(l, pfx) then [Path(l)[|pfx|]] else [])
  }

  /** The CPU numbers of the lines under `pfx`, in input order. */
  function CpusUnder(lines: seq<Line>, pfx: seq<nat>): seq<nat> {
    if lines == [] then []
    else
      var l := lines[|lines| - 1];
      CpusUnder(lines[..|lines| - 1], pfx) + (if Matches(l, pfx) then [l.cpu] else [])
  }

  lemma {:induction false} InKidsUnder(lines: seq<Line>, pfx: seq<nat>, k: nat)
    requires |pfx| < 3
    ensures k in KidsUnder(lines, pfx) <==> exists i :: 0 <= i < |lines| && Matches(lines[i], pfx + [k])
  {
    if lines != [] {
      var n := |lines| - 1;
      InKidsUnder(lines[..n], pfx, k);
      MatchesExtend(lines[n], pfx, k);
      assert forall i :: 0 <= i < n ==> lines[..n][i] == lines[i];
      forall i | 0 <= i < |lines| ensures Matches(lines[i], pfx + [k]) <==> Matches(lines[i], pfx) && Path(lines[i])[|pfx|] == k {
        MatchesExtend(lines[i], pfx, k);
      }
    }
  }

  lemma {:induction false} InCpusUnder(lines: seq<Line>, pfx: seq<nat>, x: nat)
    ensures x in CpusUnder(lines, pfx) <==>
            exists i :: 0 <= i < |lines| && Matches(lines[i], pfx) && lines[i].cpu == x
  {
    if lines != [] {
      var n := |lines| - 1;
      InCpusUnder(lines[..n], pfx, x);
      assert forall i :: 0 <= i < n ==> lines[..n][i] == lines[i];
    }
  }

  /** The value `_add_nums` creates for a new key: `[]` at the core level, `{}` above it. */
  function Empty(depth: nat): Tree {
    if depth == 0 then Leaf([]) else EmptyDict
  }

  /** The subtree under `pfx` of the hierarchy of `lines`: under a full path the list of the
      path's CPUs, otherwise a dict from the numbers one level below, in order of first
      occurrence, to their subtrees. */
  function SubTree(lines: seq<Line>, pfx: seq<nat>): Tree
    requires |pfx| <= 3
    decreases 3 - |pfx|
  {
    if |pfx| == 3 then Leaf(CpusUnder(lines, pfx))
    else
      var ks := Dedup(KidsUnder(lines, pfx));
      Dict(ks, map k | k in ks :: SubTree(lines, pfx + [k]))
  }

  /** `cpugeom["pkgs"]` for the lines `lines`. */
  function TreeOf(lines: seq<Line>): Tree {
    SubTree(lines, [])
  }

  /** `t` is a dict nested `depth` levels deep with lists at the bottom, each dict well formed. */
  ghost predicate Shaped(t: Tree, depth: nat)
    decreases depth
  {
    if depth == 0 then t.Leaf?
    else t.Dict? && WellFormed(t) && forall k :: k in t.kids ==> Shaped(t.kids[k], depth - 1)
  }

  /** Shaped, and every dict below the top and every list has at least one entry. */
  ghost predicate Full(t: Tree, depth: nat)
    decreases depth
  {
    if depth == 0 then t.Leaf?
    else
      t.Dict? && WellFormed(t) &&
      forall k :: k in t.kids ==> Full(t.kids[k], depth - 1) && NonEmpty(t.kids[k])
  }

  predicate NonEmpty(t: Tree) {
    if t.Leaf? then t.cpus != [] else t.keys != []
  }

  lemma {:induction false} NoneUnder(lines: seq<Line>, pfx: seq<nat>)
    requires |pfx| <= 3
    requires forall i :: 0 <= i < |lines| ==> !Matches(lines[i], pfx)
    ensures |pfx| < 3 ==> KidsUnder(lines, pfx) == []
    ensures CpusUnder(lines, pfx) == []
  {
    if lines != [] {
      NoneUnder(lines[..|lines| - 1], pfx);
    }
  }

  /** A path no line has leads to the empty value `_add_nums` would create. */
  lemma NoneMatchEmpty(lines: seq<Line>, pfx: seq<nat>)
    requires |pfx| <= 3
    requires forall i :: 0 <= i < |lines| ==> !Matches(lines[i], pfx)
    ensures SubTree(lines, pfx) == Empty(3 - |pfx|)
  {
    NoneUnder(lines, pfx);
  }

  /** The subtree under a path that some line has is not empty. */
  lemma SubTreeNonEmpty(lines: seq<Line>, pfx: seq<nat>, i: nat)
    requires |pfx| <= 3 && i < |lines| && Matches(lines[i], pfx)
    ensures NonEmpty(SubTree(lines, pfx))
  {
    if |pfx| == 3 {
      InCpusUnder(lines, pfx, lines[i].cpu);
    } else {
      var k := Path(lines[i])[|pfx|];
      MatchesExtend(lines[i], pfx, k);
      InKidsUnder(lines, pfx, k);
      assert k in Dedup(KidsUnder(lines, pfx));
    }
  }

  /** Every subtree of the hierarchy is `Full`. */
  lemma {:induction false} SubTreeFull(lines: seq<Line>, pfx: seq<nat>)
    requires |pfx| <= 3
    ensures Full(SubTree(lines, pfx), 3 - |pfx|)
    decreases 3 - |pfx|
  {
    if |pfx| < 3 {
      var t := SubTree(lines, pfx);
      forall k | k in t.kids ensures Full(t.kids[k], 2 - |pfx|) && NonEmpty(t.kids[k]) {
        SubTreeFull(lines, pfx + [k]);
        InKidsUnder(lines, pfx, k);
        var i :| 0 <= i < |lines| && Matches(lines[i], pfx + [k]);
        SubTreeNonEmpty(lines, pfx + [k], i);
      }
    }
  }

  lemma FullIsShaped(t: Tree, depth: nat)
    requires Full(t, depth)
    ensures Shaped(t, depth)
    decreases depth
  {
    if depth > 0 {
      forall k | k in t.kids ensures Shaped(t.kids[k], depth - 1) {
        FullIsShaped(t.kids[k], depth - 1);
      }
    }
  }

  /** What `_add_nums` does to the dict `t` for the rest `rest` of a line's path and its CPU:
      create missing keys (`[]` at the core level, `{}` above) and append the CPU to the list. */
  function Ins(t: Tree, rest: seq<nat>, cpu: nat): Tree
    decreases |rest|
  {
    if rest == [] then (if t.Leaf? then Leaf(t.cpus + [cpu]) else t)
    else if t.Leaf? then t
    else
      var k := rest[0];
      var child := if k in t.kids then t.kids[k] else Empty(|rest| - 1);
      Put(t, k, Ins(child, rest[1..], cpu))
  }

  /** Adding a line under `pfx` is inserting its path into the subtree; every other subtree is
      left as it is. */
  lemma SubTreeAppend(lines: seq<Line>, l: Line, pfx: seq<nat>)
    requires |pfx| <= 3
    ensures SubTree(lines + [l], pfx) ==
            if Matches(l, pfx) then Ins(SubTree(lines, pfx), Path(l)[|pfx|..], l.cpu)
            else SubTree(lines, pfx)
    decreases 3 - |pfx|, 1
  {
    var all := lines + [l];
    assert all[..|all| - 1] == lines;
    if |pfx| == 3 {
      if Matches(l, pfx) {
        assert Path(l)[|pfx|..] == [];
      }
    } else if Matches(l, pfx) {
      SubTreeAppendMatch(lines, l, pfx);
    } else {
      SubTreeAppendOther(lines, l, pfx);
    }
  }

  lemma SubTreeAppendOther(lines: seq<Line>, l: Line, pfx: seq<nat>)
    requires |pfx| < 3 && !Matches(l, pfx)
    ensures SubTree(lines + [l], pfx) == SubTree(lines, pfx)
    decreases 3 - |pfx|, 0
  {
    var all := lines + [l];
    assert all[..|all| - 1] == lines;
    assert KidsUnder(all, pfx) == KidsUnder(lines, pfx);
    var ks := Dedup(KidsUnder(lines, pfx));
    forall k | k in ks ensures SubTree(all, pfx + [k]) == SubTree(lines, pfx + [k]) {
      MatchesExtend(l, pfx, k);
      SubTreeAppend(lines, l, pfx + [k]);
    }
    var m := map k | k in ks :: SubTree(lines, pfx + [k]);
    assert (map k | k in ks :: SubTree(all, pfx + [k])) == m;
  }

  lemma SubTreeAppendMatch(lines: seq<Line>, l: Line, pfx: seq<nat>)
    requires |pfx| < 3 && Matches(l, pfx)
    ensures SubTree(lines + [l], pfx) == Ins(SubTree(lines, pfx), Path(l)[|pfx|..], l.cpu)
    decreases 3 - |pfx|, 0
  {
    var all := lines + [l];
    assert all[..|all| - 1] == lines;
    var k0 := Path(l)[|pfx|];
    var rest := Path(l)[|pfx|..];
    assert rest[0] == k0 && rest[1..] == Path(l)[|pfx + [k0]|..];
    assert KidsUnder(all, pfx) == KidsUnder(lines, pfx) + [k0];
    DedupSnoc(KidsUnder(lines, pfx), k0);
    var old_ks := Dedup(KidsUnder(lines, pfx));
    var new_ks := Dedup(KidsUnder(all, pfx));
    var t := SubTree(lines, pfx);
    MatchesExtend(l, pfx, k0);
    SubTreeAppend(lines, l, pfx + [k0]);
    var child := if k0 in t.kids then t.kids[k0] else Empty(|rest| - 1);
    if k0 !in old_ks {
      forall i | 0 <= i < |lines| ensures !Matches(lines[i], pfx + [k0]) {
        InKidsUnder(lines, pfx, k0);
      }
      NoneMatchEmpty(lines, pfx + [k0]);
    }
    assert child == SubTree(lines, pfx + [k0]);
    var newkid := Ins(child, rest[1..], l.cpu);
    assert newkid == SubTree(all, pfx + [k0]);
    forall k | k in old_ks && k != k0 ensures SubTree(all, pfx + [k]) == SubTree(lines, pfx + [k]) {
      MatchesExtend(l, pfx, k);
      SubTreeAppend(lines, l, pfx + [k]);
    }
    var m := map k | k in new_ks :: SubTree(all, pfx + [k]);
    assert forall k :: k in new_ks <==> k in old_ks || k == k0;
    MapPatch(t.kids, m, k0, newkid);
    assert Ins(t, rest, l.cpu) == Put(t, k0, newkid);
  }

  lemma MapPatch(before: map<nat, Tree>, after: map<nat, Tree>, k0: nat, v: Tree)
    requires k0 in after && after[k0] == v
    requires forall k :: k in after <==> k in before || k == k0
    requires forall k :: k in before && k != k0 ==> after[k] == before[k]
    ensures before[k0 := v] == after
  {
  }

  /** The insertion point of `_add_nums` for `path`: the dict or list reached by following
      `path` from `t`, or the empty value created on the way where a key is missing. */
  function Descend(t: Tree, path: seq<nat>): Tree
    requires |path| <= 3
  {
    if path == [] then t
    else
      var up := Descend(t, path[..|path| - 1]);
      var k := path[|path| - 1];
      if up.Dict? && k in up.kids then up.kids[k] else Empty(3 - |path|)
  }

  /** `path` leads through existing keys of `t`. */
  predicate Present(t: Tree, path: seq<nat>)
    requires |path| <= 3
  {
    path == [] ||
    (Present(t, path[..|path| - 1]) &&
     var up := Descend(t, path[..|path| - 1]);
     up.Dict? && path[|path| - 1] in up.kids)
  }

  lemma {:induction false} DescendShaped(t: Tree, path: seq<nat>)
    requires |path| <= 3 && Shaped(t, 3)
    ensures Shaped(Descend(t, path), 3 - |path|)
    ensures !Present(t, path) ==> Descend(t, path) == Empty(3 - |path|)
  {
    if path != [] {
      DescendShaped(t, path[..|path| - 1]);
    }
  }

  /** In the hierarchy of `lines`, a path is present exactly when some online line has it, and
      then it leads to that path's subtree. */
  lemma {:induction false} PresentTreeOf(lines: seq<Line>, path: seq<nat>)
    requires |path| <= 3
    ensures Present(TreeOf(lines), path) <==>
            path == [] || exists i :: 0 <= i < |lines| && Matches(lines[i], path)
    ensures Present(TreeOf(lines), path) ==> Descend(TreeOf(lines), path) == SubTree(lines, path)
  {
    if path != [] {
      var n := |path| - 1;
      var up := path[..n];
      var k := path[n];
      assert path == up + [k];
      PresentTreeOf(lines, up);
      InKidsUnder(lines, up, k);
      forall i | 0 <= i < |lines| ensures Matches(lines[i], path) ==> Matches(lines[i], up) {
        MatchesExtend(lines[i], up, k);
      }
      if n == 0 {
        assert up == [];
      }
    }
  }

  // ----- counters -----

  /** The set of the first `n` path numbers of the online lines: `n` = 1 gives the packages,
      2 the (package, node) pairs, 3 the (package, node, core) triples. */
  function Prefixes(lines: seq<Line>, n: nat): (r: set<seq<nat>>)
    requires n <= 3
    ensures forall p :: p in r ==> |p| == n
  {
    if lines == [] then {}
    else
      var l := lines[|lines| - 1];
      Prefixes(lines[..|lines| - 1], n) + (if l.Online? then {Path(l)[..n]} else {})
  }

  lemma {:induction false} InPrefixes(lines: seq<Line>, p: seq<nat>)
    requires 1 <= |p| <= 3
    ensures p in Prefixes(lines, |p|) <==> exists i :: 0 <= i < |lines| && Matches(lines[i], p)
  {
    if lines != [] {
      var n := |lines| - 1;
      InPrefixes(lines[..n], p);
      assert forall i :: 0 <= i < n ==> lines[..n][i] == lines[i];
    }
  }

  /** The number of online lines. */
  function OnlineCount(lines: seq<Line>): nat {
    if lines == [] then 0
    else OnlineCount(lines[..|lines| - 1]) + (if lines[|lines| - 1].Online? then 1 else 0)
  }

  /** `[pkgcnt, nodecnt, corecnt, cpucnt]` after all of `lines`. */
  function CountsOf(lines: seq<Line>): (c: seq<nat>)
    ensures |c| == 4
  {
    [|Prefixes(lines, 1)|, |Prefixes(lines, 2)|, |Prefixes(lines, 3)|, OnlineCount(lines)]
  }

  /** `_add_nums(nums)` (pepclibs/CPUInfo.py:294-316): walk down the package, node and core
      levels, counting every level whose key is new, then append the CPU and count it. The
      dicts are values here, so the nested update is the rebuilt tree `Ins(pkgs, ...)`. */
  method AddNums(pkgs: Tree, cnt: seq<nat>, l: Line) returns (pkgs': Tree, cnt': seq<nat>)
    requires l.Online? && |cnt| == 4 && Shaped(pkgs, 3)
    ensures pkgs' == Ins(pkgs, Path(l), l.cpu)
    ensures |cnt'| == 4
    ensures forall d :: 0 <= d < 3 ==>
              cnt'[d] == cnt[d] + (if Present(pkgs, Path(l)[..d + 1]) then 0 else 1)
    ensures cnt'[3] == cnt[3] + 1
  {
    var path := Path(l);
    var item := pkgs;
    cnt' := cnt;
    for idx := 0 to 3
      invariant |cnt'| == 4
      invariant item == Descend(pkgs, path[..idx])
      invariant forall d :: 0 <= d < idx ==>
                  cnt'[d] == cnt[d] + (if Present(pkgs, path[..d + 1]) then 0 else 1)
      invariant forall d :: idx <= d < 3 ==> cnt'[d] == cnt[d]
      invariant cnt'[3] == cnt[3] + (if idx == 3 then 1 else 0)
    {
      DescendShaped(pkgs, path[..idx]);
      assert path[..idx + 1][..idx] == path[..idx];
      var num := path[idx];
      if num !in item.kids {
        cnt' := cnt'[idx := cnt'[idx] + 1];
        item := Empty(2 - idx);
      } else {
        item := item.kids[num];
      }
      if idx == 2 {
        cnt' := cnt'[3 := cnt'[3] + 1];
      }
    }
    pkgs' := Ins(pkgs, path, l.cpu);
  }

  /** One more online line: the hierarchy is the old one with the line's path inserted. */
  lemma TreeOfAppend(lines: seq<Line>, l: Line)
    requires l.Online?
    ensures TreeOf(lines + [l]) == Ins(TreeOf(lines), Path(l), l.cpu)
  {
    assert Path(l)[..0] == [] && Path(l)[0..] == Path(l);
    SubTreeAppend(lines, l, []);
  }

  /** One more online line: each of the counters of `_add_nums` grows by one exactly when the
      line's package, (package, node) pair or (package, node, core) triple is new; the CPU
      counter always grows. */
  lemma CountsAppend(lines: seq<Line>, l: Line)
    requires l.Online?
    ensures forall d :: 0 <= d < 3 ==>
              CountsOf(lines + [l])[d] ==
                CountsOf(lines)[d] + (if Path(l)[..d + 1] in Prefixes(lines, d + 1) then 0 else 1)
    ensures CountsOf(lines + [l])[3] == CountsOf(lines)[3] + 1
  {
    var all := lines + [l];
    assert all[..|all| - 1] == lines;
  }

  /** A path is present in the hierarchy exactly when it is a prefix of an online line's path. */
  lemma PresentIsPrefix(lines: seq<Line>, p: seq<nat>)
    requires 1 <= |p| <= 3
    ensures Present(TreeOf(lines), p) <==> p in Prefixes(lines, |p|)
  {
    PresentTreeOf(lines, p);
    InPrefixes(lines, p);
  }

  /** The hierarchy of no lines is `{}`, with all counters 0. */
  lemma TreeOfNothing()
    ensures TreeOf([]) == EmptyDict && CountsOf([]) == [0, 0, 0, 0]
  {
    assert Dedup([]) == [];
  }
}
