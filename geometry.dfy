/** The CPU geometry dictionary that `get_cpu_geometry` builds (pepclibs/CPUInfo.py:336-421): the
    full hierarchy `pkgs`, the partial hierarchies `nodes`, `cores` and `cpus`, for every level
    its sorted numbers, their runs of consecutive numbers and the runs' range tokens, the offline
    CPUs, the counters and the `<lvl1>s_per_<lvl2>` ratios. */
module CpuGeometry {
  import opened Base
  import opened Lists
  import opened Ranges
  import opened Lscpu
  import opened Levels
  import opened Topology
  import opened Hierarchy
  import opened Flattening
  import opened PartialHierarchy

  /** The `<lvl>s_sorted`, `<lvl>s_grouped` and `<lvl>_ranges` entries of one level. */
  datatype View = View(sorted: seq<nat>, grouped: seq<seq<nat>>, ranges: seq<string>)

  datatype Geometry = Geometry(
    pkgs: Tree, nodes: Tree, cores: Tree, cpus: Tree,
    pkgsView: View, nodesView: View, coresView: View, cpusView: View,
    offcpus: seq<nat>, offcpusView: View,
    counts: seq<nat>,
    offcpucnt: nat,
    ratios: map<(Level, Level), nat>)

  /** `cpugeom[lvl + "s"]`. */
  function TreeAt(g: Geometry, lvl: Level): Tree {
    match lvl
    case Pkg => g.pkgs
    case Node => g.nodes
    case Core => g.cores
    case Cpu => g.cpus
  }

  /** The sorted, grouped and ranges entries of level `lvl`. */
  function ViewAt(g: Geometry, lvl: Level): View {
    match lvl
    case Pkg => g.pkgsView
    case Node => g.nodesView
    case Core => g.coresView
    case Cpu => g.cpusView
  }

  /** `sorted(cpugeom[lvl + "s"])`: iterating a dict gives its keys, a list its elements. */
  function SortedOf(t: Tree): seq<nat> {
    if t.Leaf? then Sort(t.cpus) else Sort(t.keys)
  }

  /** The grouped and ranges entries computed from a sorted list. */
  function ViewOf(sorted: seq<nat>): View {
    RunsPartition(sorted);
    View(sorted, Runs(sorted), Tokens(Runs(sorted)))
  }

  /** The CPU numbers of the offline lines, in input order (`cpugeom["offcpus"]`). */
  function OfflineCpus(lines: seq<Line>): seq<nat> {
    if lines == [] then []
    else
      var l := lines[|lines| - 1];
      OfflineCpus(lines[..|lines| - 1]) + (if l.Offline? then [l.cpu] else [])
  }

  /** `int(a / b)`, or 0 when `b` is 0 (the ZeroDivisionError branch). */
  function Ratio(a: nat, b: nat): (r: nat)
    ensures b == 0 ==> r == 0
    ensures b > 0 ==> r * b <= a < (r + 1) * b
  {
    if b == 0 then 0 else a / b
  }

  /** The pairs (lvl1, lvl2) the ratio loop visits: lvl1 from node down, lvl2 up to core, and
      never the same level. */
  const RatioPairs: seq<(Level, Level)> :=
    [(Node, Pkg), (Node, Core), (Core, Pkg), (Core, Node), (Cpu, Pkg), (Cpu, Node), (Cpu, Core)]

  /** The `<lvl1>s_per_<lvl2>` entries computed from the counters. */
  function Ratios(counts: seq<nat>): (r: map<(Level, Level), nat>)
    requires |counts| == 4
    ensures forall p :: p in r <==> p.0 != Pkg && p.1 != Cpu && p.0 != p.1
    ensures forall p :: p in r ==> r[p] == Ratio(counts[Index(p.0)], counts[Index(p.1)])
  {
    map p | p in RatioPairs :: Ratio(counts[Index(p.0)], counts[Index(p.1)])
  }

  /** The geometry of the `lscpu` lines `lines`. */
  function GeometryOf(lines: seq<Line>): Geometry {
    var pkgs := TreeOf(lines);
    var nodes := Flatten(pkgs, 1);
    var cores := Flatten(pkgs, 2);
    var cpus := Flatten(pkgs, 3);
    var off := OfflineCpus(lines);
    var counts := CountsOf(lines);
    Geometry(pkgs, nodes, cores, cpus,
             ViewOf(SortedOf(pkgs)), ViewOf(SortedOf(nodes)), ViewOf(SortedOf(cores)),
             ViewOf(SortedOf(cpus)),
             off, ViewOf(Sort(off)),
             counts, |off|, Ratios(counts))
  }

  // ----- building it -----

  /** The grouping and range loops for one sorted list (pepclibs/CPUInfo.py:397-407). */
  method MakeView(sorted: seq<nat>) returns (v: View)
    ensures v == ViewOf(sorted)
  {
    var grouped := GroupConsecutive(sorted);
    var ranges := RangeTokens(grouped);
    v := View(sorted, grouped, ranges);
  }

  /** A line that is not online changes neither the hierarchy nor the counters. */
  lemma AppendNotOnline(lines: seq<Line>, l: Line)
    requires !l.Online?
    ensures TreeOf(lines + [l]) == TreeOf(lines)
    ensures CountsOf(lines + [l]) == CountsOf(lines)
  {
    var all := lines + [l];
    assert all[..|all| - 1] == lines;
    var top: seq<nat> := [];
    SubTreeAppend(lines, l, top);
  }

  /** One online line: `_add_nums` keeps the hierarchy and the counters in step with the lines
      read so far. */
  method AddLine(ghost lines: seq<Line>, pkgs: Tree, cnt: seq<nat>, l: Line)
    returns (pkgs': Tree, cnt': seq<nat>)
    requires l.Online? && pkgs == TreeOf(lines) && cnt == CountsOf(lines)
    ensures pkgs' == TreeOf(lines + [l]) && cnt' == CountsOf(lines + [l])
  {
    TreeOfFull(lines);
    pkgs', cnt' := AddNums(pkgs, cnt, l);
    TreeOfAppend(lines, l);
    CountsStep(lines, l, cnt');
  }

  lemma CountsStep(lines: seq<Line>, l: Line, cnt': seq<nat>)
    requires l.Online? && |cnt'| == 4
    requires forall d :: 0 <= d < 3 ==>
               cnt'[d] == CountsOf(lines)[d] +
                          (if Present(TreeOf(lines), Path(l)[..d + 1]) then 0 else 1)
    requires cnt'[3] == CountsOf(lines)[3] + 1
    ensures cnt' == CountsOf(lines + [l])
  {
    CountsAppend(lines, l);
    var want := CountsOf(lines + [l]);
    forall d | 0 <= d < 3 ensures cnt'[d] == want[d] {
      PresentIsPrefix(lines, Path(l)[..d + 1]);
    }
    assert cnt'[3] == want[3];
  }

  /** One line of the parse loop (pepclibs/CPUInfo.py:372-381): a comment is skipped, an offline
      CPU is recorded and counted, an online one goes through `_add_nums`. */
  method ParseLine(ghost prefix: seq<Line>, pkgs: Tree, cnt: seq<nat>, offcpus: seq<nat>,
                   offcpucnt: nat, l: Line)
    returns (pkgs': Tree, cnt': seq<nat>, offcpus': seq<nat>, offcpucnt': nat)
    requires pkgs == TreeOf(prefix) && cnt == CountsOf(prefix)
    requires offcpus == OfflineCpus(prefix) && offcpucnt == |offcpus|
    ensures pkgs' == TreeOf(prefix + [l]) && cnt' == CountsOf(prefix + [l])
    ensures offcpus' == OfflineCpus(prefix + [l]) && offcpucnt' == |offcpus'|
  {
    OfflineCpusAppend(prefix, l);
    pkgs', cnt', offcpus', offcpucnt' := pkgs, cnt, offcpus, offcpucnt;
    if l.Comment? {
      AppendNotOnline(prefix, l);
    } else if l.Offline? {
      offcpucnt' := offcpucnt + 1;
      offcpus' := offcpus + [l.cpu];
      AppendNotOnline(prefix, l);
    } else {
      pkgs', cnt' := AddLine(prefix, pkgs, cnt, l);
    }
  }

  lemma OfflineCpusAppend(lines: seq<Line>, l: Line)
    ensures OfflineCpus(lines + [l]) == OfflineCpus(lines) + (if l.Offline? then [l.cpu] else [])
  {
    assert (lines + [l])[..|lines|] == lines;
  }

  /** The parse loop over the `lscpu` lines (pepclibs/CPUInfo.py:370-381). */
  method ParseLines(lines: seq<Line>)
    returns (pkgs: Tree, cnt: seq<nat>, offcpus: seq<nat>, offcpucnt: nat)
    ensures pkgs == TreeOf(lines) && cnt == CountsOf(lines)
    ensures offcpus == OfflineCpus(lines) && offcpucnt == |offcpus|
  {
    pkgs := EmptyDict;
    cnt := [0, 0, 0, 0];
    offcpus := [];
    offcpucnt := 0;
    TreeOfNothing();
    assert lines[..0] == [];
    for i := 0 to |lines|
      invariant pkgs == TreeOf(lines[..i]) && cnt == CountsOf(lines[..i])
      invariant offcpus == OfflineCpus(lines[..i]) && offcpucnt == |offcpus|
    {
      TakeSnoc(lines, i);
      pkgs, cnt, offcpus, offcpucnt := ParseLine(lines[..i], pkgs, cnt, offcpus, offcpucnt, lines[i]);
    }
    assert lines[..|lines|] == lines;
  }

  /** `get_cpu_geometry` without its cache: parse the lines, flatten the hierarchy to each
      level, sort, group, render the ranges and compute the ratios. */
  method BuildGeometry(lines: seq<Line>) returns (g: Geometry)
    ensures g == GeometryOf(lines)
  {
    var pkgs, cnt, offcpus, offcpucnt := ParseLines(lines);
    TreeOfFull(lines);
    var nodes := FlattenToLevel(pkgs, 1, 3);
    var cores := FlattenToLevel(pkgs, 2, 3);
    var cpus := FlattenToLevel(pkgs, 3, 3);
    var pv := MakeView(SortedOf(pkgs));
    var nv := MakeView(SortedOf(nodes));
    var cv := MakeView(SortedOf(cores));
    var uv := MakeView(SortedOf(cpus));
    var ov := MakeView(Sort(offcpus));
    g := Geometry(pkgs, nodes, cores, cpus, pv, nv, cv, uv, offcpus, ov, cnt, offcpucnt,
                  Ratios(cnt));
  }

  // ----- what the geometry says -----

  lemma SortedOfKeys(t: Tree, s: seq<nat>)
    requires t.Dict? && NoDups(t.keys) && forall x :: x in t.keys <==> x in s
    ensures SortedOf(t) == SortedUnique(s)
  {
    SortNoDups(t.keys);
    assert forall x :: x in Sort(t.keys) <==> x in multiset(t.keys);
    StrictlyIncreasingUnique(SortedOf(t), SortedUnique(s));
  }

  /** The sorted list of every level holds the level's numbers of the online lines: each package,
      node and core number once, in ascending order (the dicts of the partial hierarchies have
      one key per number), and each online CPU once per line. */
  lemma GeometrySorted(lines: seq<Line>, lvl: Level)
    ensures ViewAt(GeometryOf(lines), lvl).sorted ==
            if lvl == Cpu then Sort(Column(lines, Cpu)) else SortedUnique(Column(lines, lvl))
  {
    var g := GeometryOf(lines);
    if lvl == Cpu {
      FlattenedCpus(lines);
      if g.cpus == EmptyDict {
        assert SortedOf(g.cpus) == Sort([]) == [];
      } else {
        SortedByMultiset(Sort(g.cpus.cpus), Sort(Column(lines, Cpu)));
      }
    } else {
      var j := Index(lvl);
      assert LevelAt(j) == lvl;
      FlattenedKeys(lines, j);
      SortedOfKeys(TreeAt(g, lvl), Column(lines, lvl));
    }
  }

  /** The grouped entry of a view splits its sorted list into maximal runs of consecutive
      numbers, and its range tokens expand back to the sorted list. */
  lemma ViewOfSpec(sorted: seq<nat>)
    ensures Partitions(ViewOf(sorted).grouped, sorted)
    ensures ExpandTokens(ViewOf(sorted).ranges) == Some(sorted)
  {
    RunsPartition(sorted);
    ExpandTokensOfRuns(sorted);
  }

  /** Every view of the geometry is consistent: runs partition the sorted list, and the ranges
      expand back to it. */
  lemma GeometryViews(lines: seq<Line>, lvl: Level)
    ensures Partitions(ViewAt(GeometryOf(lines), lvl).grouped, ViewAt(GeometryOf(lines), lvl).sorted)
    ensures ExpandTokens(ViewAt(GeometryOf(lines), lvl).ranges) ==
            Some(ViewAt(GeometryOf(lines), lvl).sorted)
    ensures Partitions(GeometryOf(lines).offcpusView.grouped, Sort(OfflineCpus(lines)))
    ensures ExpandTokens(GeometryOf(lines).offcpusView.ranges) == Some(Sort(OfflineCpus(lines)))
  {
    ViewOfSpec(ViewAt(GeometryOf(lines), lvl).sorted);
    ViewOfSpec(Sort(OfflineCpus(lines)));
  }

  lemma {:induction false} InOfflineCpus(lines: seq<Line>, x: nat)
    ensures x in OfflineCpus(lines) <==>
            exists i :: 0 <= i < |lines| && lines[i].Offline? && lines[i].cpu == x
  {
    if lines != [] {
      var init := lines[..|lines| - 1];
      InOfflineCpus(init, x);
      assert forall i :: 0 <= i < |init| ==> init[i] == lines[i];
    }
  }

  /** The offline CPUs are the CPU numbers of the offline lines, and their counter is their
      number. */
  lemma GeometryOffline(lines: seq<Line>, x: nat)
    ensures x in GeometryOf(lines).offcpus <==>
            exists i :: 0 <= i < |lines| && lines[i].Offline? && lines[i].cpu == x
    ensures GeometryOf(lines).offcpucnt == |GeometryOf(lines).offcpus|
    ensures GeometryOf(lines).offcpusView.sorted == Sort(GeometryOf(lines).offcpus)
  {
    InOfflineCpus(lines, x);
  }

  /** The counters: `pkgcnt` is the number of packages, `cpucnt` the number of online lines and of
      CPUs in the bottom lists; `nodecnt` and `corecnt` count the distinct (package, node) and
      (package, node, core) paths. */
  lemma GeometryCounts(lines: seq<Line>)
    ensures GeometryOf(lines).counts[0] == |GeometryOf(lines).pkgs.keys|
    ensures GeometryOf(lines).counts[1] == |Prefixes(lines, 2)|
    ensures GeometryOf(lines).counts[2] == |Prefixes(lines, 3)|
    ensures GeometryOf(lines).counts[3] == |Column(lines, Cpu)| ==
            |Leaves(GeometryOf(lines).pkgs)|
  {
    PkgCount(lines);
    CpuCount(lines);
    OnlineCountColumn(lines, Cpu);
  }

  /** Cores are keyed by their core number alone, so the cores of different packages that share a
      number collide in `cpugeom["cores"]`: two packages with one core 0 each count two cores but
      leave one key, holding the CPUs of the package iterated last. */
  lemma CoresCollide()
    ensures var g := GeometryOf([Online(0, 0, 0, 0), Online(1, 1, 0, 1)]);
            g.counts[2] == 2 && g.cores == Dict([0], map[0 := Leaf([1])])
  {
    var lines := [Online(0, 0, 0, 0), Online(1, 1, 0, 1)];
    TwoPackagesTree(lines);
    TreeOfFull(lines);
    TwoPackagesCores(TreeOf(lines));
    TwoPackagesCoreCount();
  }

  /** The packages 0 and 1, each with one node and one core 0 holding one CPU. */
  function TwoPackages(): Tree {
    Dict([0, 1], map[0 := Dict([0], map[0 := Dict([0], map[0 := Leaf([0])])]),
                     1 := Dict([1], map[1 := Dict([0], map[0 := Leaf([1])])])])
  }

  lemma TwoPackagesTree(lines: seq<Line>)
    requires lines == [Online(0, 0, 0, 0), Online(1, 1, 0, 1)]
    ensures TreeOf(lines) == TwoPackages()
  {
    var a, b := lines[0], lines[1];
    OnePackageTree([a]);
    assert lines == [a] + [b];
    TreeOfAppend([a], b);
    assert Path(b) == [1, 1, 0];
    SecondPackage();
  }

  lemma OnePackageTree(lines: seq<Line>)
    requires lines == [Online(0, 0, 0, 0)]
    ensures TreeOf(lines) ==
            Dict([0], map[0 := Dict([0], map[0 := Dict([0], map[0 := Leaf([0])])])])
  {
    var a := lines[0];
    TreeOfNothing();
    assert lines == [] + [a];
    TreeOfAppend([], a);
    assert Ins(Leaf([]), [], 0) == Leaf([0]);
    assert Ins(EmptyDict, [0], 0) == Dict([0], map[0 := Leaf([0])]);
    assert Ins(EmptyDict, [0, 0], 0) == Dict([0], map[0 := Dict([0], map[0 := Leaf([0])])]);
  }

  lemma SecondPackage()
    ensures Ins(Dict([0], map[0 := Dict([0], map[0 := Dict([0], map[0 := Leaf([0])])])]),
                [1, 1, 0], 1) == TwoPackages()
  {
    var c1 := Dict([0], map[0 := Leaf([1])]);
    assert Ins(Leaf([]), [], 1) == Leaf([1]);
    assert Ins(EmptyDict, [0], 1) == c1;
    assert Ins(EmptyDict, [1, 0], 1) == Dict([1], map[1 := c1]);
  }

  lemma TwoPackagesCores(t: Tree)
    requires t == TwoPackages() && Full(t, 3)
    ensures Flatten(t, 2) == Dict([0], map[0 := Leaf([1])])
  {
    FlattenIsFromEntries(t, 3, 2);
    TwoPackagesEntries(t);
    CollidingEntries([(0, Leaf([0])), (0, Leaf([1]))]);
  }

  lemma TwoPackagesEntries(t: Tree)
    requires t == TwoPackages()
    ensures Entries(t, 2) == [(0, Leaf([0])), (0, Leaf([1]))]
  {
    TwoKeyEntries(t, 0, 1, t.kids[0], t.kids[1]);
    PackageEntries(t.kids[0], 0, 0);
    PackageEntries(t.kids[1], 1, 1);
  }

  lemma TwoKeyEntries(t: Tree, a: nat, b: nat, da: Tree, db: Tree)
    requires t == Dict([a, b], map[a := da, b := db]) && a != b
    ensures Entries(t, 2) == Entries(da, 1) + Entries(db, 1)
  {
    assert t.keys[..1] == [a] && t.keys[..1][..0] == [];
    assert EntriesKeys(t, 2, t.keys[..1]) == EntriesKeys(t, 2, []) + Entries(da, 1);
    assert EntriesKeys(t, 2, t.keys) == EntriesKeys(t, 2, t.keys[..1]) + Entries(db, 1);
  }

  /** The entries two levels down of a package with one node `n` and one core 0 holding CPU `c`. */
  lemma PackageEntries(p: Tree, n: nat, c: nat)
    requires p == Dict([n], map[n := Dict([0], map[0 := Leaf([c])])])
    ensures Entries(p, 1) == [(0, Leaf([c]))]
  {
    OneKeyEntries(p, n, p.kids[n]);
    OneCoreItems(p.kids[n], c);
  }

  lemma OneKeyEntries(p: Tree, n: nat, d: Tree)
    requires p == Dict([n], map[n := d]) && d.Dict?
    ensures Entries(p, 1) == Items(d)
  {
    assert p.keys[..0] == [];
    assert EntriesKeys(p, 1, p.keys) == EntriesKeys(p, 1, []) + Entries(d, 0);
  }

  lemma OneCoreItems(d: Tree, c: nat)
    requires d == Dict([0], map[0 := Leaf([c])])
    ensures Items(d) == [(0, Leaf([c]))]
  {
    assert d.keys[..0] == [];
    assert ItemsFor(d, d.keys) == ItemsFor(d, []) + [(0, d.kids[0])];
  }

  lemma CollidingEntries(es: seq<(nat, Tree)>)
    requires es == [(0, Leaf([0])), (0, Leaf([1]))]
    ensures FromEntries(es) == Dict([0], map[0 := Leaf([1])])
  {
    var e1 := es[..1];
    assert e1 == [(0, Leaf([0]))] && e1[..0] == [];
    var d0 := PutAll(EmptyDict, e1);
    assert d0 == Put(PutAll(EmptyDict, e1[..0]), e1[0].0, e1[0].1);
    assert d0 == Put(EmptyDict, 0, Leaf([0]));
    assert [] + [0] == [0];
    assert d0.keys == [0];
    assert d0.kids[0 := Leaf([1])] == map[0 := Leaf([1])];
  }

  lemma TwoPackagesCoreCount()
    ensures CountsOf([Online(0, 0, 0, 0), Online(1, 1, 0, 1)])[2] == 2
  {
    var a, b := Online(0, 0, 0, 0), Online(1, 1, 0, 1);
    assert [a, b][..1] == [a] && [a][..0] == [];
    assert Path(a)[..3] == [0, 0, 0] && Path(b)[..3] == [1, 1, 0];
    assert Prefixes([a], 3) == {[0, 0, 0]};
    assert Prefixes([a, b], 3) == {[0, 0, 0], [1, 1, 0]};
  }


}
