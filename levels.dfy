/** The level query engine of class `CPUInfo`: `_get_level` (pepclibs/CPUInfo.py:146-198), the
    validation of user ID lists (`get_cpu_list`, `get_package_list`) and the reverse lookups
    (`cpu_to_package`, `cpu_to_core`), as functions of the `lscpu` lines. */
module Levels {
  import opened Base
  import opened Lists
  import opened Lscpu

  /** The numbers at level `lvl` of the online lines, in input order. */
  function Column(lines: seq<Line>, lvl: Level): seq<nat> {
    if lines == [] then []
    else
      var l := lines[|lines| - 1];
      Column(lines[..|lines| - 1], lvl) + (if l.Online? then [Coord(l, lvl)] else [])
  }

  lemma {:induction false} InColumn(lines: seq<Line>, lvl: Level, x: nat)
    ensures x in Column(lines, lvl) <==>
            exists i :: 0 <= i < |lines| && lines[i].Online? && Coord(lines[i], lvl) == x
  {
    if lines != [] {
      var init := lines[..|lines| - 1];
      InColumn(init, lvl, x);
      assert forall i :: 0 <= i < |init| ==> init[i] == lines[i];
    }
  }

  /** The keys of the `items` dictionary in insertion order: every start-level number of an
      online line, in the order of first occurrence. */
  function Keys(lines: seq<Line>, lvl: Level): seq<nat> {
    Dedup(Column(lines, lvl))
  }

  /** `items[k]`: the `e` numbers of the online lines whose `s` number is `k`, in input order. */
  function Members(lines: seq<Line>, s: Level, e: Level, k: nat): seq<nat> {
    if lines == [] then []
    else
      var l := lines[|lines| - 1];
      Members(lines[..|lines| - 1], s, e, k) +
        (if l.Online? && Coord(l, s) == k then [Coord(l, e)] else [])
  }

  lemma {:induction false} InMembers(lines: seq<Line>, s: Level, e: Level, k: nat, x: nat)
    ensures x in Members(lines, s, e, k) <==>
            exists i :: 0 <= i < |lines| && lines[i].Online? && Coord(lines[i], s) == k &&
                        Coord(lines[i], e) == x
  {
    if lines != [] {
      var init := lines[..|lines| - 1];
      InMembers(init, s, e, k, x);
      assert forall i :: 0 <= i < |init| ==> init[i] == lines[i];
    }
  }

  /** The key `k` has members exactly when some online line has `s` number `k`. */
  lemma {:induction false} MembersEmpty(lines: seq<Line>, s: Level, e: Level, k: nat)
    ensures Members(lines, s, e, k) == [] <==> k !in Column(lines, s)
  {
    if lines != [] {
      MembersEmpty(lines[..|lines| - 1], s, e, k);
    }
  }

  /** `result += items[num]` for every requested number, in order. */
  function Gather(lines: seq<Line>, s: Level, e: Level, ks: seq<nat>): seq<nat> {
    if ks == [] then []
    else Gather(lines, s, e, ks[..|ks| - 1]) + Members(lines, s, e, ks[|ks| - 1])
  }

  lemma {:induction false} InGather(lines: seq<Line>, s: Level, e: Level, ks: seq<nat>, x: nat)
    ensures x in Gather(lines, s, e, ks) <==>
            exists i :: 0 <= i < |lines| && lines[i].Online? && Coord(lines[i], s) in ks &&
                        Coord(lines[i], e) == x
  {
    if ks != [] {
      var init := ks[..|ks| - 1];
      var k := ks[|ks| - 1];
      InGather(lines, s, e, init, x);
      InMembers(lines, s, e, k, x);
      assert ks == init + [k];
    }
  }

  /** The first element of `ks` that is not in `keys`, if any. */
  function FirstMissing(ks: seq<nat>, keys: seq<nat>): (r: Option<nat>)
    ensures r.None? <==> forall j :: 0 <= j < |ks| ==> ks[j] in keys
    ensures r.Some? ==> exists j :: 0 <= j < |ks| && ks[j] == r.value && ks[j] !in keys &&
                                    forall j' :: 0 <= j' < j ==> ks[j'] in keys
  {
    if ks == [] then None
    else
      var n := |ks| - 1;
      var m := FirstMissing(ks[..n], keys);
      assert forall j :: 0 <= j < n ==> ks[..n][j] == ks[j];
      if m.Some? then m else if ks[n] !in keys then Some(ks[n]) else None
  }

  /** The start-level numbers a query walks: every key for `All`, otherwise the requested numbers
      sorted and de-duplicated by `ArgParse.parse_int_list`. */
  function Requested(lines: seq<Line>, s: Level, nums: Nums): seq<nat> {
    match nums
    case All => Keys(lines, s)
    case NumList(raw) => SortedUnique(raw)
  }

  /** `_get_level(start, end, nums)` once the level names are known to be valid and ordered:
      the de-duplicated `e` numbers of the requested `s` numbers, or the error for the first
      requested number that is not a key. */
  function LevelQuery(lines: seq<Line>, s: Level, e: Level, nums: Nums): Result<seq<nat>> {
    AnswerOf(lines, s, e, Keys(lines, s), Requested(lines, s, nums))
  }

  /** The answer for the requested numbers `req` given the keys `keys`. */
  function AnswerOf(lines: seq<Line>, s: Level, e: Level, keys: seq<nat>, req: seq<nat>): Result<seq<nat>> {
    match FirstMissing(req, keys)
    case Some(n) => Err(NoSuchId(LevelNames[Index(s)], n, keys))
    case None => Ok(Dedup(Gather(lines, s, e, req)))
  }

  /** `_get_level(start, end, nums)` (pepclibs/CPUInfo.py:146-198). */
  function Level(lines: seq<Line>, start: string, end: string, nums: Nums): (r: Result<seq<nat>>)
    ensures (r.Err? && r.error.BadLevels?) <==> (start !in LevelNames || end !in LevelNames)
    ensures (r.Err? && r.error.BadLevelOrder?) <==>
            (start in LevelNames && end in LevelNames &&
             Index(LevelOf(start).value) > Index(LevelOf(end).value))
    ensures start in LevelNames && end in LevelNames &&
            Index(LevelOf(start).value) <= Index(LevelOf(end).value) ==>
            r == LevelQuery(lines, LevelOf(start).value, LevelOf(end).value, nums)
  {
    match (LevelOf(start), LevelOf(end))
    case (Some(s), Some(e)) =>
      if Index(s) > Index(e) then Err(BadLevelOrder(start, end)) else LevelQuery(lines, s, e, nums)
    case _ => Err(BadLevels(start, end))
  }

  /** A successful query holds no duplicates, and holds `x` exactly when some online line has a
      requested start number and end number `x`: comment and offline lines contribute nothing,
      and the start number is matched alone, whatever the line's other numbers are. */
  lemma LevelQueryOk(lines: seq<Line>, s: Level, e: Level, nums: Nums, x: nat)
    requires LevelQuery(lines, s, e, nums).Ok?
    ensures NoDups(LevelQuery(lines, s, e, nums).value)
    ensures x in LevelQuery(lines, s, e, nums).value <==>
            exists i :: 0 <= i < |lines| && lines[i].Online? &&
                        Coord(lines[i], s) in Requested(lines, s, nums) && Coord(lines[i], e) == x
  {
    InGather(lines, s, e, Requested(lines, s, nums), x);
  }

  /** A query fails exactly when a requested number is not the start number of any online
      line; the error names the smallest such number, after which nothing was looked up, and
      lists every key. With `All` a query never fails. */
  lemma LevelQueryErr(lines: seq<Line>, s: Level, e: Level, nums: Nums)
    ensures LevelQuery(lines, s, e, nums).Err? <==>
            exists n :: n in Requested(lines, s, nums) && n !in Column(lines, s)
    ensures nums == All ==> LevelQuery(lines, s, e, nums).Ok?
    ensures LevelQuery(lines, s, e, nums).Err? ==>
              var err := LevelQuery(lines, s, e, nums).error;
              && err.NoSuchId?
              && err.level == LevelNames[Index(s)]
              && err.available == Keys(lines, s)
              && err.num in Requested(lines, s, nums)
              && (forall i :: 0 <= i < |lines| && lines[i].Online? ==> Coord(lines[i], s) != err.num)
              && (nums.NumList? ==>
                    (err.num in nums.raw &&
                     forall n :: n in nums.raw && n < err.num ==> n in Column(lines, s)))
  {
    var m := FirstMissing(Requested(lines, s, nums), Keys(lines, s));
    if m.Some? {
      FirstMissingFirst(lines, s, nums);
      InColumn(lines, s, m.value);
    } else {
      NoneMissing(lines, s, nums);
    }
  }

  /** The number a failing query reports is requested, not a key, and only keys are requested
      below it. */
  lemma FirstMissingFirst(lines: seq<Line>, s: Level, nums: Nums)
    requires FirstMissing(Requested(lines, s, nums), Keys(lines, s)).Some?
    ensures var n := FirstMissing(Requested(lines, s, nums), Keys(lines, s)).value;
            && n in Requested(lines, s, nums) && n !in Column(lines, s)
            && (nums.NumList? ==>
                  (n in nums.raw && forall n' :: n' in nums.raw && n' < n ==> n' in Column(lines, s)))
  {
    var req := Requested(lines, s, nums);
    var keys := Keys(lines, s);
    var m := FirstMissing(req, keys);
    var j :| 0 <= j < |req| && req[j] == m.value && req[j] !in keys &&
             forall j' :: 0 <= j' < j ==> req[j'] in keys;
    if nums.NumList? {
      forall n | n in nums.raw && n < m.value ensures n in Column(lines, s) {
        assert n in req;
        var jn :| 0 <= jn < |req| && req[jn] == n;
        assert jn < j;
      }
    }
  }

  /** A query that finds every requested number among the keys finds it in the column. */
  lemma NoneMissing(lines: seq<Line>, s: Level, nums: Nums)
    requires FirstMissing(Requested(lines, s, nums), Keys(lines, s)).None?
    ensures forall n :: n in Requested(lines, s, nums) ==> n in Column(lines, s)
  {
    var req := Requested(lines, s, nums);
    forall n | n in req ensures n in Column(lines, s) {
      var j :| 0 <= j < |req| && req[j] == n;
    }
  }

  /** With `All`, a query from any level returns every end-level number of an online line
      (the start level only changes the order). */
  lemma LevelQueryAll(lines: seq<Line>, s: Level, e: Level)
    ensures LevelQuery(lines, s, e, All).Ok?
    ensures forall x :: x in LevelQuery(lines, s, e, All).value <==> x in Column(lines, e)
  {
    LevelQueryErr(lines, s, e, All);
    forall x ensures x in LevelQuery(lines, s, e, All).value <==> x in Column(lines, e) {
      LevelQueryOk(lines, s, e, All, x);
      InColumn(lines, e, x);
      if x in Column(lines, e) {
        var i :| 0 <= i < |lines| && lines[i].Online? && Coord(lines[i], e) == x;
        InColumn(lines, s, Coord(lines[i], s));
      }
    }
  }

  /** `Members(lines, l, l, k)` repeats `k` once per online line of `k`. */
  lemma {:induction false} MembersSameLevel(lines: seq<Line>, l: Level, k: nat)
    ensures forall x :: x in Members(lines, l, l, k) ==> x == k
  {
    if lines != [] {
      MembersSameLevel(lines[..|lines| - 1], l, k);
    }
  }

  /** On a single level, gathering only ever yields requested numbers. */
  lemma {:induction false} GatherSameLevelIn(lines: seq<Line>, l: Level, ks: seq<nat>, x: nat)
    requires x in Gather(lines, l, l, ks)
    ensures x in ks
  {
    var n := |ks| - 1;
    if x in Gather(lines, l, l, ks[..n]) {
      GatherSameLevelIn(lines, l, ks[..n], x);
      assert ks[..n] <= ks;
    } else {
      MembersSameLevel(lines, l, ks[n]);
    }
  }

  lemma {:induction false} DedupGatherSameLevel(lines: seq<Line>, l: Level, ks: seq<nat>)
    requires NoDups(ks)
    requires forall j :: 0 <= j < |ks| ==> ks[j] in Column(lines, l)
    ensures Dedup(Gather(lines, l, l, ks)) == ks
  {
    if ks != [] {
      var n := |ks| - 1;
      var init := ks[..n];
      var k := ks[n];
      assert ks == init + [k];
      assert forall j :: 0 <= j < n ==> init[j] == ks[j];
      DedupGatherSameLevel(lines, l, init);
      var g := Gather(lines, l, l, init);
      var ms := Members(lines, l, l, k);
      MembersSameLevel(lines, l, k);
      MembersEmpty(lines, l, l, k);
      forall j | 0 <= j < n ensures init[j] != k {
        assert ks[j] != ks[n];
      }
      assert k !in g by {
        if k in g {
          GatherSameLevelIn(lines, l, init, k);
        }
      }
      assert ms != [];
      assert Gather(lines, l, l, ks) == g + ms;
      DedupRepeat(g, ms, k);
    }
  }

  /** Appending one or more copies of a new element to a list appends it once to its Dedup. */
  lemma {:induction false} DedupRepeat(g: seq<nat>, ms: seq<nat>, k: nat)
    requires k !in g && ms != [] && forall x :: x in ms ==> x == k
    ensures Dedup(g + ms) == Dedup(g) + [k]
    decreases |ms|
  {
    var n := |ms| - 1;
    var t := g + ms;
    assert t[..|t| - 1] == g + ms[..n];
    assert ms[n] in ms;
    if n == 0 {
      assert g + ms[..n] == g;
    } else {
      assert ms[0] in ms[..n];
      assert forall x :: x in ms[..n] ==> x in ms;
      DedupRepeat(g, ms[..n], k);
      assert k in g + ms[..n];
    }
  }

  /** On a single level (`get_cpus`, `get_cores`, `get_packages`) a query with `All` returns the
      level's numbers exactly once each, in the order they first occur. */
  lemma LevelQuerySameLevel(lines: seq<Line>, l: Level)
    ensures LevelQuery(lines, l, l, All) == Ok(Keys(lines, l))
  {
    LevelQueryErr(lines, l, l, All);
    DedupGatherSameLevel(lines, l, Keys(lines, l));
  }

  // ----- get_cpu_list / get_package_list -----

  /** The shared body of `get_cpu_list` and `get_package_list` (pepclibs/CPUInfo.py:234-268):
      `all` is the level's online list; every requested number must be in it. */
  function ValidateIds(all: seq<nat>, nums: Nums, lvl: Level): Result<seq<nat>> {
    match nums
    case All => Ok(all)
    case NumList(raw) =>
      var req := SortedUnique(raw);
      match FirstMissing(req, all)
      case Some(n) =>
        Err(if lvl == Pkg then PackageNotAvailable(n, SortedUnique(all))
            else CpuNotAvailable(n, SortedUnique(all)))
      case None => Ok(req)
  }

  /** `get_cpu_list(cpus)`. */
  function CpuList(lines: seq<Line>, nums: Nums): Result<seq<nat>> {
    ValidateIds(Keys(lines, Cpu), nums, Cpu)
  }

  /** `get_package_list(pkgs)`. */
  function PackageList(lines: seq<Line>, nums: Nums): Result<seq<nat>> {
    ValidateIds(Keys(lines, Pkg), nums, Pkg)
  }

  /** Validation returns the full online list for `All`; otherwise the requested numbers sorted
      and de-duplicated, all of them online; or it rejects the smallest requested number that is
      not online, listing the online numbers sorted. */
  lemma ValidateIdsSpec(lines: seq<Line>, lvl: Level, nums: Nums)
    requires lvl == Cpu || lvl == Pkg
    ensures var r := ValidateIds(Keys(lines, lvl), nums, lvl);
      && (nums == All ==> r == Ok(Keys(lines, lvl)))
      && (nums.NumList? && r.Ok? ==>
            && StrictlyIncreasing(r.value)
            && (forall x :: x in r.value <==> x in nums.raw)
            && (forall x :: x in r.value ==> x in Column(lines, lvl)))
      && (nums.NumList? && r.Err? ==>
            var n := if lvl == Pkg then r.error.pkg else r.error.cpu;
            && (if lvl == Pkg then r.error.PackageNotAvailable? else r.error.CpuNotAvailable?)
            && n in nums.raw
            && n !in Column(lines, lvl)
            && (forall m :: m in nums.raw && m < n ==> m in Column(lines, lvl))
            && StrictlyIncreasing(r.error.available)
            && (forall x :: x in r.error.available <==> x in Column(lines, lvl)))
      && (nums.NumList? ==> (r.Ok? <==> forall x :: x in nums.raw ==> x in Column(lines, lvl)))
  {
    var all := Keys(lines, lvl);
    if nums.NumList? {
      var req := SortedUnique(nums.raw);
      var m := FirstMissing(req, all);
      if m.Some? {
        var j :| 0 <= j < |req| && req[j] == m.value && req[j] !in all &&
                 forall j' :: 0 <= j' < j ==> req[j'] in all;
        forall n | n in nums.raw && n < m.value ensures n in Column(lines, lvl) {
          var jn :| 0 <= jn < |req| && req[jn] == n;
          assert jn < j;
        }
      } else {
        forall x | x in nums.raw ensures x in Column(lines, lvl) {
          var j :| 0 <= j < |req| && req[j] == x;
        }
      }
    }
  }

  // ----- cpu_to_package / cpu_to_core -----

  /** The first key of `ks` whose CPU list (`pkgs_to_cpus(pkgs=k)` or `cores_to_cpus(cores=k)`)
      holds `cpu`. */
  function FirstOwner(lines: seq<Line>, hi: Level, ks: seq<nat>, cpu: nat): (r: Option<nat>)
    ensures r.None? <==> forall j :: 0 <= j < |ks| ==> cpu !in Members(lines, hi, Cpu, ks[j])
    ensures r.Some? ==> exists j :: 0 <= j < |ks| && ks[j] == r.value &&
                                    cpu in Members(lines, hi, Cpu, ks[j]) &&
                                    forall j' :: 0 <= j' < j ==> cpu !in Members(lines, hi, Cpu, ks[j'])
  {
    if ks == [] then None
    else
      var n := |ks| - 1;
      var m := FirstOwner(lines, hi, ks[..n], cpu);
      assert forall j :: 0 <= j < n ==> ks[..n][j] == ks[j];
      if m.Some? then m
      else if cpu in Members(lines, hi, Cpu, ks[n]) then Some(ks[n])
      else None
  }

  /** `cpu_to_package(cpu)` (hi = Pkg) and `cpu_to_core(cpu)` (hi = Core). */
  function CpuToOwner(lines: seq<Line>, hi: Level, cpu: nat): Result<nat> {
    match FirstOwner(lines, hi, Keys(lines, hi), cpu)
    case Some(k) => Ok(k)
    case None => Err(CpuNotAvailable(cpu, SortedUnique(Keys(lines, Cpu))))
  }

  /** The lookup succeeds exactly for online CPUs. It returns the first key, in the order keys
      first occur, that has an online line with this CPU; an offline or unknown CPU is rejected
      with the sorted online CPU list. */
  lemma CpuToOwnerSpec(lines: seq<Line>, hi: Level, cpu: nat)
    ensures CpuToOwner(lines, hi, cpu).Ok? <==> cpu in Column(lines, Cpu)
    ensures CpuToOwner(lines, hi, cpu).Ok? ==>
              var k := CpuToOwner(lines, hi, cpu).value;
              var keys := Keys(lines, hi);
              && (exists i :: 0 <= i < |lines| && lines[i].Online? && Coord(lines[i], hi) == k &&
                              lines[i].cpu == cpu)
              && (exists j :: 0 <= j < |keys| && keys[j] == k &&
                    forall i :: 0 <= i < |lines| && lines[i].Online? && lines[i].cpu == cpu ==>
                                Coord(lines[i], hi) !in keys[..j])
    ensures CpuToOwner(lines, hi, cpu).Err? ==>
              CpuToOwner(lines, hi, cpu).error == CpuNotAvailable(cpu, SortedUnique(Keys(lines, Cpu)))
  {
    var keys := Keys(lines, hi);
    var m := FirstOwner(lines, hi, keys, cpu);
    InColumn(lines, Cpu, cpu);
    if m.Some? {
      var j :| 0 <= j < |keys| && keys[j] == m.value && cpu in Members(lines, hi, Cpu, keys[j]) &&
               forall j' :: 0 <= j' < j ==> cpu !in Members(lines, hi, Cpu, keys[j']);
      InMembers(lines, hi, Cpu, keys[j], cpu);
      forall i | 0 <= i < |lines| && lines[i].Online? && lines[i].cpu == cpu
        ensures Coord(lines[i], hi) !in keys[..j]
      {
        if Coord(lines[i], hi) in keys[..j] {
          var j' :| 0 <= j' < j && keys[..j][j'] == Coord(lines[i], hi);
          InMembers(lines, hi, Cpu, keys[j'], cpu);
        }
      }
    } else {
      if cpu in Column(lines, Cpu) {
        var i :| 0 <= i < |lines| && lines[i].Online? && Coord(lines[i], Cpu) == cpu;
        var k := Coord(lines[i], hi);
        InColumn(lines, hi, k);
        var j :| 0 <= j < |keys| && keys[j] == k;
        InMembers(lines, hi, Cpu, k, cpu);
      }
    }
  }

  // ----- the loops of _get_level -----

  /** The body of `_get_level` after the level checks (pepclibs/CPUInfo.py:161-198): one pass
      over the lines fills the `items` dictionary, a second pass over the requested numbers
      concatenates their lists. */
  method QueryLevel(lines: seq<Line>, s: Level, e: Level, nums: Nums) returns (r: Result<seq<nat>>)
    ensures r == LevelQuery(lines, s, e, nums)
  {
    var keys, items := CollectItems(lines, s, e);
    var req := if nums.All? then keys else SortedUnique(nums.raw);
    r := Answer(lines, s, e, keys, items, req);
  }

  /** The second pass of `_get_level`: concatenate the lists of the requested numbers, failing
      on the first one that is not a key, and de-duplicate. */
  method Answer(lines: seq<Line>, s: Level, e: Level, keys: seq<nat>, items: map<nat, seq<nat>>, req: seq<nat>)
    returns (r: Result<seq<nat>>)
    requires ItemsOf(lines, s, e, keys, items)
    ensures r == AnswerOf(lines, s, e, keys, req)
  {
    var result: seq<nat> := [];
    for j := 0 to |req|
      invariant FirstMissing(req[..j], keys) == None
      invariant result == Gather(lines, s, e, req[..j])
    {
      if req[j] !in items {
        AnswerMissing(lines, s, e, keys, items, req, j);
        return Err(NoSuchId(LevelNames[Index(s)], req[j], keys));
      }
      AnswerFound(lines, s, e, keys, items, req, j);
      result := result + items[req[j]];
    }
    assert req[..|req|] == req;
    return Ok(Dedup(result));
  }

  /** The first requested number that is not a key decides the answer, */
  lemma AnswerMissing(lines: seq<Line>, s: Level, e: Level, keys: seq<nat>, items: map<nat, seq<nat>>,
                      req: seq<nat>, j: nat)
    requires ItemsOf(lines, s, e, keys, items) && j < |req| && req[j] !in items
    requires FirstMissing(req[..j], keys) == None
    ensures AnswerOf(lines, s, e, keys, req) == Err(NoSuchId(LevelNames[Index(s)], req[j], keys))
  {
    TakeSnoc(req, j);
    assert req[..j + 1][..j] == req[..j];
    assert FirstMissing(req[..j + 1], keys) == Some(req[j]);
    FirstMissingExtend(req[..j + 1], req[j + 1..], keys);
    assert req[..j + 1] + req[j + 1..] == req;
  }

  /** and a key adds its list. */
  lemma AnswerFound(lines: seq<Line>, s: Level, e: Level, keys: seq<nat>, items: map<nat, seq<nat>>,
                    req: seq<nat>, j: nat)
    requires ItemsOf(lines, s, e, keys, items) && j < |req| && req[j] in items
    requires FirstMissing(req[..j], keys) == None
    ensures FirstMissing(req[..j + 1], keys) == None
    ensures Gather(lines, s, e, req[..j + 1]) == Gather(lines, s, e, req[..j]) + items[req[j]]
  {
    TakeSnoc(req, j);
    assert req[..j + 1][..j] == req[..j];
  }

  /** The first pass of `_get_level`: for every online line, append its `e` number to the list
      of its `s` number, creating the list (and the key) on first sight. */
  method CollectItems(lines: seq<Line>, s: Level, e: Level) returns (keys: seq<nat>, items: map<nat, seq<nat>>)
    ensures ItemsOf(lines, s, e, keys, items)
  {
    keys, items := [], map[];
    for i := 0 to |lines|
      invariant ItemsOf(lines[..i], s, e, keys, items)
    {
      var l := lines[i];
      if l.Online? {
        var k := Coord(l, s);
        if k in items {
          ItemsAppend(lines, i, s, e, keys, items);
          items := items[k := items[k] + [Coord(l, e)]];
        } else {
          ItemsNew(lines, i, s, e, keys, items);
          items := items[k := [Coord(l, e)]];
          keys := keys + [k];
        }
      } else {
        ItemsSkip(lines, i, s, e, keys, items);
      }
    }
    assert lines[..|lines|] == lines;
  }

  /** `keys` and `items` are what the first pass of `_get_level` has built from `lines`. */
  ghost predicate ItemsOf(lines: seq<Line>, s: Level, e: Level, keys: seq<nat>, items: map<nat, seq<nat>>) {
    && keys == Keys(lines, s)
    && (forall k :: k in items <==> k in keys)
    && (forall k :: k in items ==> items[k] == Members(lines, s, e, k))
  }

  /** One iteration of the first pass keeps `ItemsOf`: an offline or comment line changes
      nothing, */
  lemma ItemsSkip(lines: seq<Line>, i: nat, s: Level, e: Level, keys: seq<nat>, items: map<nat, seq<nat>>)
    requires i < |lines| && !lines[i].Online? && ItemsOf(lines[..i], s, e, keys, items)
    ensures ItemsOf(lines[..i + 1], s, e, keys, items)
  {
    PrefixStep(lines, i, s, e);
    assert Column(lines[..i + 1], s) == Column(lines[..i], s);
    forall k ensures Members(lines[..i + 1], s, e, k) == Members(lines[..i], s, e, k) {
    }
  }

  /** a line of a known key extends that key's list, */
  lemma ItemsAppend(lines: seq<Line>, i: nat, s: Level, e: Level, keys: seq<nat>, items: map<nat, seq<nat>>)
    requires i < |lines| && lines[i].Online? && Coord(lines[i], s) in items
    requires ItemsOf(lines[..i], s, e, keys, items)
    ensures ItemsOf(lines[..i + 1], s, e, keys,
                    items[Coord(lines[i], s) := items[Coord(lines[i], s)] + [Coord(lines[i], e)]])
  {
    var k := Coord(lines[i], s);
    PrefixStep(lines, i, s, e);
    DedupSnoc(Column(lines[..i], s), k);
  }

  /** and a line of a new key adds the key with a one-element list. */
  lemma ItemsNew(lines: seq<Line>, i: nat, s: Level, e: Level, keys: seq<nat>, items: map<nat, seq<nat>>)
    requires i < |lines| && lines[i].Online? && Coord(lines[i], s) !in items
    requires ItemsOf(lines[..i], s, e, keys, items)
    ensures ItemsOf(lines[..i + 1], s, e, keys + [Coord(lines[i], s)],
                    items[Coord(lines[i], s) := [Coord(lines[i], e)]])
  {
    var k := Coord(lines[i], s);
    PrefixStep(lines, i, s, e);
    DedupSnoc(Column(lines[..i], s), k);
    MembersEmpty(lines[..i], s, e, k);
  }

  /** What one more line adds to the column and to every key's list. */
  lemma PrefixStep(lines: seq<Line>, i: nat, s: Level, e: Level)
    requires i < |lines|
    ensures Column(lines[..i + 1], s) ==
            Column(lines[..i], s) + (if lines[i].Online? then [Coord(lines[i], s)] else [])
    ensures forall k :: (Members(lines[..i + 1], s, e, k) ==
                         Members(lines[..i], s, e, k) +
                           (if lines[i].Online? && Coord(lines[i], s) == k then [Coord(lines[i], e)] else []))
  {
    assert lines[..i + 1][..i] == lines[..i];
  }

  lemma {:induction false} FirstMissingExtend(a: seq<nat>, b: seq<nat>, keys: seq<nat>)
    requires FirstMissing(a, keys).Some?
    ensures FirstMissing(a + b, keys) == FirstMissing(a, keys)
    decreases |b|
  {
    if b == [] {
      assert a + b == a;
    } else {
      var n := |b| - 1;
      FirstMissingExtend(a, b[..n], keys);
      assert (a + b)[..|a + b| - 1] == a + b[..n];
    }
  }

  /** The `for num in nums` check of `get_cpu_list` and `get_package_list`: the first requested
      number that is not available. */
  method FindUnavailable(req: seq<nat>, all: seq<nat>) returns (m: Option<nat>)
    ensures m.None? <==> forall j :: 0 <= j < |req| ==> req[j] in all
    ensures m.Some? ==> exists j :: 0 <= j < |req| && req[j] == m.value && req[j] !in all &&
                                    forall j' :: 0 <= j' < j ==> req[j'] in all
    ensures m == FirstMissing(req, all)
  {
    for j := 0 to |req|
      invariant forall j' :: 0 <= j' < j ==> req[j'] in all
    {
      if req[j] !in all {
        assert forall j' :: 0 <= j' < j ==> req[..j + 1][j'] == req[j'];
        FirstMissingExtend(req[..j + 1], req[j + 1..], all);
        assert req[..j + 1] + req[j + 1..] == req;
        return Some(req[j]);
      }
    }
    return None;
  }

  // ----- examples -----

  /** Core numbers repeat across packages on real hardware numbering schemes; `_get_level` keys
      by the start number alone, so core 0 of package 0 and core 0 of package 1 are one key. */
  lemma CoresKeyedGlobally()
    ensures LevelQuery([Online(0, 0, 0, 0), Online(1, 1, 0, 1)], Core, Cpu, NumList([0])) == Ok([0, 1])
  {
    var lines := [Online(0, 0, 0, 0), Online(1, 1, 0, 1)];
    assert LevelQuery(lines, Core, Cpu, NumList([0])) == Ok(Dedup(Members(lines, Core, Cpu, 0))) by {
      TwoCoresZero(lines);
      SortedUniqueOne(0);
      AnswerOfOne(lines, Core, Cpu, Keys(lines, Core), 0);
    }
    assert Members(lines, Core, Cpu, 0) == [0, 1] by { TwoCoresZero(lines); }
    DedupZeroOne();
  }

  lemma DedupZeroOne()
    ensures Dedup([0, 1]) == [0, 1]
  {
    DedupOfNoDups([0, 1]);
  }

  /** A single requested key is answered with its own list, de-duplicated. */
  lemma AnswerOfOne(lines: seq<Line>, s: Level, e: Level, keys: seq<nat>, k: nat)
    requires k in keys
    ensures AnswerOf(lines, s, e, keys, [k]) == Ok(Dedup(Members(lines, s, e, k)))
  {
    assert [k][..0] == [];
    assert FirstMissing([k], keys) == None;
    assert Gather(lines, s, e, [k]) == Members(lines, s, e, k);
  }

  /** The two lines of the example: both have core 0, and core 0 holds CPUs 0 and 1. */
  lemma TwoCoresZero(lines: seq<Line>)
    requires lines == [Online(0, 0, 0, 0), Online(1, 1, 0, 1)]
    ensures Keys(lines, Core) == [0] && Members(lines, Core, Cpu, 0) == [0, 1]
  {
    var a := Online(0, 0, 0, 0);
    assert lines[..1] == [a];
    assert Column(lines, Core) == [0, 0] by {
      OneLine(a);
      assert Column(lines, Core) == Column([a], Core) + [0];
    }
    assert Members(lines, Core, Cpu, 0) == [0, 1] by {
      OneLine(a);
      assert Members(lines, Core, Cpu, 0) == Members([a], Core, Cpu, 0) + [1];
    }
    DedupOfZeros();
  }

  /** The example's first line alone. */
  lemma OneLine(a: Line)
    requires a == Online(0, 0, 0, 0)
    ensures Column([a], Core) == [0] && Members([a], Core, Cpu, 0) == [0]
  {
    assert [a][..0] == [];
  }

  lemma DedupOfZeros()
    ensures Dedup([0, 0]) == [0]
  {
    assert [0, 0][..1] == [0] && [0][..0] == [];
  }

  lemma SortedUniqueOne(x: nat)
    ensures SortedUnique([x]) == [x]
  {
    StrictlyIncreasingUnique(SortedUnique([x]), [x]);
  }
}
