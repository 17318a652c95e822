/** The `CPUInfo` class (pepclibs/CPUInfo.py:129-439): the `lscpu` output of one host, read once
    and cached, the topology queries answered from it, and the CPU geometry built once and
    cached. */
module CpuInfo {
  import opened Base
  import opened Lists
  import opened Lscpu
  import opened Levels
  import opened CpuGeometry

  /** A query of one key of level `hi` for its CPUs returns the key's CPUs. */
  lemma OneKeyQuery(lines: seq<Line>, hi: Level, k: nat)
    requires k in Keys(lines, hi)
    ensures LevelQuery(lines, hi, Cpu, NumList([k])) == Ok(Dedup(Members(lines, hi, Cpu, k)))
  {
    var one := [k];
    StrictlyIncreasingUnique(SortedUnique(one), one);
    assert Requested(lines, hi, NumList(one)) == one;
    assert one[..0] == [];
    assert FirstMissing(one, Keys(lines, hi)) == None;
    var ms := Members(lines, hi, Cpu, k);
    assert Gather(lines, hi, Cpu, one) == Gather(lines, hi, Cpu, []) + ms;
    assert Gather(lines, hi, Cpu, one) == ms;
    assert AnswerOf(lines, hi, Cpu, Keys(lines, hi), one) == Ok(Dedup(ms));
  }

  /** Once a key is found, looking further does not change it. */
  lemma {:induction false} FirstOwnerExtend(lines: seq<Line>, hi: Level, a: seq<nat>, b: seq<nat>, cpu: nat)
    requires FirstOwner(lines, hi, a, cpu).Some?
    ensures FirstOwner(lines, hi, a + b, cpu) == FirstOwner(lines, hi, a, cpu)
    decreases |b|
  {
    if b == [] {
      assert a + b == a;
    } else {
      var init := b[..|b| - 1];
      FirstOwnerExtend(lines, hi, a, init, cpu);
      assert (a + b)[..|a + b| - 1] == a + init;
    }
  }

  /** One step of the owner loop: the key `ks[i]` owns `cpu` exactly when its CPUs, as a
      one-key query returns them, include `cpu`. */
  lemma OwnerStep(lines: seq<Line>, hi: Level, ks: seq<nat>, i: nat, cpu: nat, owned: Result<seq<nat>>)
    requires i < |ks| && ks[i] in Keys(lines, hi)
    requires FirstOwner(lines, hi, ks[..i], cpu) == None
    requires LevelQuery(lines, hi, Cpu, NumList([ks[i]])) == owned
    ensures owned.Ok?
    ensures cpu in owned.value ==> FirstOwner(lines, hi, ks, cpu) == Some(ks[i])
    ensures cpu !in owned.value ==> FirstOwner(lines, hi, ks[..i + 1], cpu) == None
  {
    var ms := Members(lines, hi, Cpu, ks[i]);
    assert owned == Ok(Dedup(ms)) by { OneKeyQuery(lines, hi, ks[i]); }
    assert cpu in owned.value <==> cpu in ms;
    FirstOwnerNext(lines, hi, ks, i, cpu);
    if cpu in ms {
      FirstOwnerPrefix(lines, hi, ks, i + 1, cpu);
    }
  }

  /** Once a prefix of the keys has an owner, the whole list has the same one. */
  lemma FirstOwnerPrefix(lines: seq<Line>, hi: Level, ks: seq<nat>, n: nat, cpu: nat)
    requires n <= |ks| && FirstOwner(lines, hi, ks[..n], cpu).Some?
    ensures FirstOwner(lines, hi, ks, cpu) == FirstOwner(lines, hi, ks[..n], cpu)
  {
    FirstOwnerExtend(lines, hi, ks[..n], ks[n..], cpu);
    assert ks[..n] + ks[n..] == ks;
  }

  /** The owner search over one more key: that key owns `cpu` when no earlier key does and its
      CPUs include `cpu`. */
  lemma FirstOwnerNext(lines: seq<Line>, hi: Level, ks: seq<nat>, i: nat, cpu: nat)
    requires i < |ks| && FirstOwner(lines, hi, ks[..i], cpu) == None
    ensures FirstOwner(lines, hi, ks[..i + 1], cpu) ==
            if cpu in Members(lines, hi, Cpu, ks[i]) then Some(ks[i]) else None
  {
    assert ks[..i + 1][..i] == ks[..i];
  }

  class CPUInfo {
    /** What `lscpu --all -p=socket,node,core,cpu,online` prints on the host, parsed into lines.
        Running the command is outside the model; its output is a parameter. */
    const lscpuOutput: seq<Line>

    /** `self._lscpu_cache`: empty until the command has run. */
    var lscpuCache: seq<Line>

    /** `self.cpugeom`: `None` until `get_cpu_geometry` has run. */
    var cpugeom: Option<Geometry>

    /** How many times the command has been run: once the output is cached, never again. */
    ghost var lscpuRuns: nat

    /** The `lscpu` cache only ever holds what the host reports. */
    ghost predicate Valid()
      reads this`lscpuCache
    {
      lscpuCache == [] || lscpuCache == lscpuOutput
    }

    /** The cached geometry, once there is one, is the geometry of what the host reports. It
        reads only `cpugeom`, so every method that leaves `cpugeom` alone keeps it. */
    ghost predicate GeometryValid()
      reads this`cpugeom
    {
      cpugeom.Some? ==> cpugeom.value == GeometryOf(lscpuOutput)
    }

    /** What a call that reads the `lscpu` output leaves behind, given the cache `cache0` and
        the run count `runs0` before it: the output is cached, and the command ran once more
        exactly when nothing was cached before. An empty output is falsy, so it is never really
        cached and the run count is then left unstated. */
    ghost predicate ReadOutput(cache0: seq<Line>, runs0: nat)
      reads this
    {
      && lscpuCache == lscpuOutput
      && (lscpuOutput != [] ==> lscpuRuns == runs0 + if cache0 == [] then 1 else 0)
    }

    /** `CPUInfo(proc)` (pepclibs/CPUInfo.py:423-439). */
    constructor(output: seq<Line>)
      ensures Valid() && GeometryValid()
      ensures lscpuOutput == output && lscpuCache == [] && cpugeom == None && lscpuRuns == 0
    {
      lscpuOutput := output;
      lscpuCache := [];
      cpugeom := None;
      lscpuRuns := 0;
    }

    /** `_get_lscpu()` (pepclibs/CPUInfo.py:135-144): the cached output, or the output of a new
        run of the command, which is then cached. An empty output is falsy and never counts as
        cached. */
    method GetLscpu() returns (lines: seq<Line>)
      requires Valid()
      modifies this
      ensures Valid() && lines == lscpuOutput
      ensures lscpuCache == lscpuOutput && cpugeom == old(cpugeom)
      ensures lscpuRuns == old(lscpuRuns) + (if old(lscpuCache) == [] then 1 else 0)
    {
      if lscpuCache != [] {
        return lscpuCache;
      }
      lscpuCache := lscpuOutput;
      lscpuRuns := lscpuRuns + 1;
      return lscpuCache;
    }

    /** `_get_level(start, end, nums)` (pepclibs/CPUInfo.py:146-198). */
    method GetLevel(start: string, end: string, nums: Nums) returns (r: Result<seq<nat>>)
      requires Valid()
      modifies this
      ensures Valid() && cpugeom == old(cpugeom)
      ensures r == Levels.Level(lscpuOutput, start, end, nums)
      ensures start in LevelNames && end in LevelNames &&
              Index(LevelOf(start).value) <= Index(LevelOf(end).value) ==>
              ReadOutput(old(lscpuCache), old(lscpuRuns))
      ensures !(start in LevelNames && end in LevelNames &&
                Index(LevelOf(start).value) <= Index(LevelOf(end).value)) ==>
              lscpuCache == old(lscpuCache) && lscpuRuns == old(lscpuRuns)
    {
      var s, e := LevelOf(start), LevelOf(end);
      if s.None? || e.None? {
        return Err(BadLevels(start, end));
      }
      if Index(s.value) > Index(e.value) {
        return Err(BadLevelOrder(start, end));
      }
      var lines := GetLscpu();
      r := QueryLevel(lines, s.value, e.value, nums);
    }

    /** `get_cpus()`: the online CPUs, in order of first appearance. */
    method GetCpus() returns (r: seq<nat>)
      requires Valid()
      modifies this
      ensures Valid() && cpugeom == old(cpugeom)
      ensures ReadOutput(old(lscpuCache), old(lscpuRuns))
      ensures r == Keys(lscpuOutput, Cpu)
    {
      var res := GetLevel("cpu", "cpu", All);
      LevelQuerySameLevel(lscpuOutput, Cpu);
      r := res.value;
    }

    /** `get_cores()`: the core numbers of the online CPUs, in order of first appearance. */
    method GetCores() returns (r: seq<nat>)
      requires Valid()
      modifies this
      ensures Valid() && cpugeom == old(cpugeom)
      ensures ReadOutput(old(lscpuCache), old(lscpuRuns))
      ensures r == Keys(lscpuOutput, Core)
    {
      var res := GetLevel("core", "core", All);
      LevelQuerySameLevel(lscpuOutput, Core);
      r := res.value;
    }

    /** `get_packages()`: the package numbers of the online CPUs, in order of first
        appearance. */
    method GetPackages() returns (r: seq<nat>)
      requires Valid()
      modifies this
      ensures Valid() && cpugeom == old(cpugeom)
      ensures ReadOutput(old(lscpuCache), old(lscpuRuns))
      ensures r == Keys(lscpuOutput, Pkg)
    {
      var res := GetLevel("pkg", "pkg", All);
      LevelQuerySameLevel(lscpuOutput, Pkg);
      r := res.value;
    }

    /** `cores_to_cpus(cores)`. */
    method CoresToCpus(cores: Nums) returns (r: Result<seq<nat>>)
      requires Valid()
      modifies this
      ensures Valid() && cpugeom == old(cpugeom)
      ensures ReadOutput(old(lscpuCache), old(lscpuRuns))
      ensures r == LevelQuery(lscpuOutput, Core, Cpu, cores)
    {
      r := GetLevel("core", "cpu", cores);
    }

    /** `pkgs_to_cores(pkgs)`. */
    method PkgsToCores(pkgs: Nums) returns (r: Result<seq<nat>>)
      requires Valid()
      modifies this
      ensures Valid() && cpugeom == old(cpugeom)
      ensures ReadOutput(old(lscpuCache), old(lscpuRuns))
      ensures r == LevelQuery(lscpuOutput, Pkg, Core, pkgs)
    {
      r := GetLevel("pkg", "core", pkgs);
    }

    /** `pkgs_to_cpus(pkgs)`. */
    method PkgsToCpus(pkgs: Nums) returns (r: Result<seq<nat>>)
      requires Valid()
      modifies this
      ensures Valid() && cpugeom == old(cpugeom)
      ensures ReadOutput(old(lscpuCache), old(lscpuRuns))
      ensures r == LevelQuery(lscpuOutput, Pkg, Cpu, pkgs)
    {
      r := GetLevel("pkg", "cpu", pkgs);
    }

    /** `get_cpu_list(cpus)` (pepclibs/CPUInfo.py:234-250). */
    method GetCpuList(cpus: Nums) returns (r: Result<seq<nat>>)
      requires Valid()
      modifies this
      ensures Valid() && cpugeom == old(cpugeom)
      ensures ReadOutput(old(lscpuCache), old(lscpuRuns))
      ensures r == CpuList(lscpuOutput, cpus)
    {
      var all := GetCpus();
      if cpus.All? {
        return Ok(all);
      }
      var req := SortedUnique(cpus.raw);
      var m := FindUnavailable(req, all);
      if m.Some? {
        return Err(CpuNotAvailable(m.value, SortedUnique(all)));
      }
      return Ok(req);
    }

    /** `get_package_list(pkgs)` (pepclibs/CPUInfo.py:252-268). */
    method GetPackageList(pkgs: Nums) returns (r: Result<seq<nat>>)
      requires Valid()
      modifies this
      ensures Valid() && cpugeom == old(cpugeom)
      ensures ReadOutput(old(lscpuCache), old(lscpuRuns))
      ensures r == PackageList(lscpuOutput, pkgs)
    {
      var all := GetPackages();
      if pkgs.All? {
        return Ok(all);
      }
      var req := SortedUnique(pkgs.raw);
      var m := FindUnavailable(req, all);
      if m.Some? {
        return Err(PackageNotAvailable(m.value, SortedUnique(all)));
      }
      return Ok(req);
    }

    /** `cpu_to_package(cpu)` (pepclibs/CPUInfo.py:270-280): the first package, in the order
        packages first occur, whose CPUs include `cpu`. */
    method CpuToPackage(cpu: nat) returns (r: Result<nat>)
      requires Valid()
      modifies this
      ensures Valid() && cpugeom == old(cpugeom)
      ensures ReadOutput(old(lscpuCache), old(lscpuRuns))
      ensures r == CpuToOwner(lscpuOutput, Pkg, cpu)
    {
      var pkgs := GetPackages();
      for i := 0 to |pkgs|
        invariant Valid() && cpugeom == old(cpugeom)
        invariant ReadOutput(old(lscpuCache), old(lscpuRuns))
        invariant FirstOwner(lscpuOutput, Pkg, pkgs[..i], cpu) == None
      {
        var owned := PkgsToCpus(NumList([pkgs[i]]));
        OwnerStep(lscpuOutput, Pkg, pkgs, i, cpu, owned);
        if cpu in owned.value {
          return Ok(pkgs[i]);
        }
      }
      assert pkgs[..|pkgs|] == pkgs;
      var allcpus := GetCpus();
      return Err(CpuNotAvailable(cpu, SortedUnique(allcpus)));
    }

    /** `cpu_to_core(cpu)` (pepclibs/CPUInfo.py:282-292): the first core, in the order cores
        first occur, whose CPUs include `cpu`. */
    method CpuToCore(cpu: nat) returns (r: Result<nat>)
      requires Valid()
      modifies this
      ensures Valid() && cpugeom == old(cpugeom)
      ensures ReadOutput(old(lscpuCache), old(lscpuRuns))
      ensures r == CpuToOwner(lscpuOutput, Core, cpu)
    {
      var cores := GetCores();
      for i := 0 to |cores|
        invariant Valid() && cpugeom == old(cpugeom)
        invariant ReadOutput(old(lscpuCache), old(lscpuRuns))
        invariant FirstOwner(lscpuOutput, Core, cores[..i], cpu) == None
      {
        var owned := CoresToCpus(NumList([cores[i]]));
        OwnerStep(lscpuOutput, Core, cores, i, cpu, owned);
        if cpu in owned.value {
          return Ok(cores[i]);
        }
      }
      assert cores[..|cores|] == cores;
      var allcpus := GetCpus();
      return Err(CpuNotAvailable(cpu, SortedUnique(allcpus)));
    }

    /** `get_cpu_geometry()` (pepclibs/CPUInfo.py:336-421): the cached geometry, or a new one
        built from the `lscpu` output and then cached. */
    method GetCpuGeometry() returns (g: Geometry)
      requires Valid() && GeometryValid()
      modifies this
      ensures Valid() && GeometryValid() && g == GeometryOf(lscpuOutput) && cpugeom == Some(g)
      ensures old(cpugeom).Some? ==> lscpuCache == old(lscpuCache) && lscpuRuns == old(lscpuRuns)
      ensures old(cpugeom).None? ==> ReadOutput(old(lscpuCache), old(lscpuRuns))
    {
      if cpugeom.Some? {
        return cpugeom.value;
      }
      var lines := GetLscpu();
      g := BuildGeometry(lines);
      cpugeom := Some(g);
    }
  }
}
