# pepc CPU topology engine, modelled in Dafny

This project models the CPU topology engine of `pepc`, the Power, Energy and Performance
Configuration tool for Linux. It also models the small CPU-selection helpers of its command
line front end.

The engine is the `CPUInfo` class (`pepclibs/CPUInfo.py`). Its input is the output of
`lscpu --all -p=socket,node,core,cpu,online`, one line per logical CPU. In the model a line is
already split at the commas and converted to integers:

- a comment line;
- an online CPU, with its package, node, core and CPU number;
- an offline CPU, with only its CPU number.

From these lines the engine answers two kinds of question:

- **Level queries.** `_get_level(start, end, nums)` and its wrappers answer "which `end`-level
  IDs belong to these `start`-level IDs" over the levels `pkg < node < core < cpu`. The wrappers
  are `get_cpus`, `get_cores`, `get_packages`, `cores_to_cpus`, `pkgs_to_cores` and
  `pkgs_to_cpus`. On top of them sit the validating `get_cpu_list` and `get_package_list`, and
  the reverse lookups `cpu_to_package` and `cpu_to_core`.
- **The geometry snapshot.** `get_cpu_geometry` builds it once and memoises it. It holds the
  nested `pkgs[p][n][c] = [cpus]` tree (`_add_nums`) and the partial trees `nodes`, `cores` and
  `cpus` (`_flatten_to_level`). For each level it also holds the sorted IDs, their runs of
  consecutive IDs and the runs' range tokens (`"3"`, `"0-7"`). Finally it holds the counters,
  the `X_per_Y` ratios and the offline CPUs.

The modules follow the source:

| file | module | what |
|---|---|---|
| `base.dfy` | `Base` | `Option`, the raised errors, `Result` |
| `lscpu.dfy` | `Lscpu` | lines, levels, ID-list arguments |
| `lists.dfy` | `Lists` | `sorted()`, `Trivial.list_dedup`, the sort-and-dedup step of `parse_int_list` |
| `levels.dfy` | `Levels` | `_get_level`, ID validation, owner lookups (functions, and loop methods proved equal to them) |
| `topology.dfy` | `Topology` | insertion-ordered Python dicts as a `Tree` value |
| `hierarchy.dfy` | `Hierarchy` | the tree `_add_nums` builds, and the counters |
| `flatten.dfy` | `Flattening` | `_flatten_to_level` |
| `partial.dfy` | `PartialHierarchy` | what the flattened views contain, in terms of the lines |
| `ranges.dfy` | `Ranges` | `groupby` runs and range tokens |
| `geometry.dfy` | `CpuGeometry` | the geometry dictionary and the loops that build it |
| `cpuinfo.dfy` | `CpuInfo` | class `CPUInfo`, with the `_lscpu_cache` and `cpugeom` memo fields |
| `pepc.dfy` | `Pepc` | SSH-option extraction, `get_cpus`, the sibling rule of `cpu-hotplug offline`, `get_scope_msg`, `bool_fmt` |

Each loop over the lines, a list or a dict's values is a method with loop invariants. Its
`ensures` equates the result with a function of the inputs, and the lemmas state what the source
promises about that function. The three short loops of `get_cpu_geometry` over the levels
(pepclibs/CPUInfo.py:385-386, 389-391 and 409-419) are not loops in the model:
`CpuGeometry.BuildGeometry` calls the flattening once per level and sorts each level in turn,
and `CpuGeometry.Ratios` is a map comprehension over the seven level pairs. The
class `CPUInfo` keeps the `lscpu` output it was built for as a constant. The command itself is not
run: `_get_lscpu` caches that constant, and a ghost counter counts the runs. Every method that
reads the output, directly or through the wrappers, states with `CpuInfo.CPUInfo.ReadOutput`
that afterwards the output is cached and that the command ran one more time exactly when nothing
was cached before, so a non-empty output is read from the host at most once.

Where the source's own behaviour differs from what one might expect, the model follows the code:

- `_get_level` keys by the start number alone. Core number 0 of package 0 and core number 0 of
  package 1 are the same key (`Levels.CoresKeyedGlobally`).
- `_add_nums` counts a core once per (package, node, core) path.
- `_flatten_to_level` merges intermediate levels with `dict.update`, so the last branch wins on
  a key collision. In `cpugeom["cores"]`, two packages with a core 0 each leave one key, which
  holds the CPUs of the later package (`CpuGeometry.CoresCollide`). No collision is reported.
- At the bottom level, `_flatten_to_level` concatenates the CPU lists without de-duplication.
  When no CPU is online, `cpugeom["cpus"]` is the empty dict `{}`, not a list.
- `get_cpu_list("all")` and `get_package_list("all")` return the IDs in the order the lines
  first list them, not sorted.
- The cache tests are Python truthiness tests. An empty `lscpu` output is not cached, so the
  command would run again on the next call.

## Model

| member | source | states |
|---|---|---|
| `Lscpu.LevelOf` | pepclibs/CPUInfo.py:80 | a level name is recognised exactly when it is one of `pkg`, `node`, `core`, `cpu`, and it maps back to its position in that order |
| `Levels.Level` | pepclibs/CPUInfo.py:146-198 | a bad-levels error exactly when a name is not a level; a bad-order error exactly when start comes after end; otherwise the answer of the level query |
| `Levels.LevelQueryOk` | pepclibs/CPUInfo.py:161-198 | a successful answer has no duplicates and holds `x` exactly when some online line has a requested start number and end number `x`; comments and offline lines contribute nothing |
| `Levels.LevelQueryErr` | pepclibs/CPUInfo.py:186-195 | the query fails exactly when a requested ID is the start number of no online line; the error names the smallest such ID and lists every key in first-seen order; with `All` it never fails |
| `Levels.LevelQueryAll` | pepclibs/CPUInfo.py:186-187 | with `All` (None or "all") from any start level, the answer holds exactly the end numbers of the online lines |
| `Levels.LevelQuerySameLevel` | pepclibs/CPUInfo.py:200-210 | `get_cpus`, `get_cores` and `get_packages` return each online ID once, in first-seen order |
| `Levels.CoresKeyedGlobally` | pepclibs/CPUInfo.py:172-175 | core 0 of two different packages is one key: `cores_to_cpus([0])` returns the CPUs of both |
| `Levels.CollectItems` | pepclibs/CPUInfo.py:161-175 | the first loop builds, for every start number in first-seen order, the list of end numbers of its online lines in input order |
| `Levels.Answer` | pepclibs/CPUInfo.py:191-198 | the second loop concatenates the lists of the requested IDs in order and de-duplicates them, or stops at the first ID that is not a key |
| `Levels.QueryLevel` | pepclibs/CPUInfo.py:161-198 | the two loops together compute the level query |
| `Levels.ValidateIdsSpec` | pepclibs/CPUInfo.py:234-268 | `get_cpu_list` / `get_package_list`: `All` gives the full online list; otherwise the request sorted and de-duplicated, all online; or an error for the smallest requested ID that is not online, listing the online IDs sorted; success exactly when every requested ID is online |
| `Levels.FindUnavailable` | pepclibs/CPUInfo.py:244-248 | the validation loop returns the first requested ID that is not available, or none when all are |
| `Levels.FirstOwner` | pepclibs/CPUInfo.py:273-275 | the first key, in the given order, whose CPU list holds `cpu`; none exactly when no key's list holds it |
| `Levels.CpuToOwnerSpec` | pepclibs/CPUInfo.py:270-292 | `cpu_to_package` / `cpu_to_core` succeed exactly for online CPUs; they return the first package/core in first-seen order that has an online line with that CPU; otherwise the not-available error with the sorted online CPUs |
| `Lists.Dedup` | pepclibs/CPUInfo.py:198 | `list_dedup` keeps exactly the elements of its input, each once, and is no longer than its input |
| `Lists.DedupPrefix` | pepclibs/CPUInfo.py:198 | `list_dedup` keeps first-occurrence order: appending never reorders the earlier result |
| `Lists.Sort` | pepclibs/CPUInfo.py:390-391 | `sorted()` returns an ascending permutation of its input |
| `Lists.SortedUnique` | pepclibs/CPUInfo.py:189 | the `dedup=True, sort=True` step of `parse_int_list` returns a strictly increasing list with exactly the input's elements |
| `Lists.SortedByMultiset` | pepclibs/CPUInfo.py:390-391 | two ascending lists with the same multiset are equal, so `sorted()` depends only on the multiset of its input |
| `CpuInfo.CPUInfo.constructor` | pepclibs/CPUInfo.py:423-439 | a new object has an empty `lscpu` cache and no geometry |
| `CpuInfo.CPUInfo.GetLscpu` | pepclibs/CPUInfo.py:135-144 | returns the host's output; caches it; runs the command only when nothing was cached; leaves the geometry alone |
| `CpuInfo.CPUInfo.GetLevel` | pepclibs/CPUInfo.py:146-198 | returns `_get_level` of the host's output and leaves the geometry alone; with valid, ordered level names the output is afterwards cached and the command ran once more only if nothing was cached (`ReadOutput`); with bad names the cache and run count are unchanged |
| `CpuInfo.CPUInfo.GetCpus` | pepclibs/CPUInfo.py:200-202 | the online CPU numbers in first-seen order; the output is afterwards cached and the command ran once more only if nothing was cached (`ReadOutput`); the geometry is untouched |
| `CpuInfo.CPUInfo.GetCores` | pepclibs/CPUInfo.py:204-206 | the core numbers of the online CPUs in first-seen order; the output is afterwards cached and the command ran once more only if nothing was cached (`ReadOutput`); the geometry is untouched |
| `CpuInfo.CPUInfo.GetPackages` | pepclibs/CPUInfo.py:208-210 | the package numbers of the online CPUs in first-seen order; the output is afterwards cached and the command ran once more only if nothing was cached (`ReadOutput`); the geometry is untouched |
| `CpuInfo.CPUInfo.CoresToCpus` | pepclibs/CPUInfo.py:212-218 | the level query from core to CPU; the output is afterwards cached and the command ran once more only if nothing was cached (`ReadOutput`); the geometry is untouched |
| `CpuInfo.CPUInfo.PkgsToCores` | pepclibs/CPUInfo.py:220-225 | the level query from package to core; the output is afterwards cached and the command ran once more only if nothing was cached (`ReadOutput`); the geometry is untouched |
| `CpuInfo.CPUInfo.PkgsToCpus` | pepclibs/CPUInfo.py:227-232 | the level query from package to CPU; the output is afterwards cached and the command ran once more only if nothing was cached (`ReadOutput`); the geometry is untouched |
| `CpuInfo.CPUInfo.GetCpuList` | pepclibs/CPUInfo.py:234-250 | the validated CPU list; the output is afterwards cached and the command ran once more only if nothing was cached (`ReadOutput`); the geometry is untouched |
| `CpuInfo.CPUInfo.GetPackageList` | pepclibs/CPUInfo.py:252-268 | the validated package list; the output is afterwards cached and the command ran once more only if nothing was cached (`ReadOutput`); the geometry is untouched |
| `CpuInfo.CPUInfo.CpuToPackage` | pepclibs/CPUInfo.py:270-280 | the loop over `get_packages()` returns the first package whose `pkgs_to_cpus` holds the CPU, or the not-available error; the output is afterwards cached and the command ran once more only if nothing was cached (`ReadOutput`); the geometry is untouched |
| `CpuInfo.CPUInfo.CpuToCore` | pepclibs/CPUInfo.py:282-292 | the loop over `get_cores()` returns the first core whose `cores_to_cpus` holds the CPU, or the not-available error; the output is afterwards cached and the command ran once more only if nothing was cached (`ReadOutput`); the geometry is untouched |
| `CpuInfo.CPUInfo.GetCpuGeometry` | pepclibs/CPUInfo.py:336-349 | returns the geometry of the host's output and stores it; on the first call the output is then cached and the command ran once more only if nothing was cached (`ReadOutput`); once it is stored, returns it without touching the `lscpu` cache or running the command |
| `Hierarchy.AddNums` | pepclibs/CPUInfo.py:294-316 | inserts the line's CPU at its (package, node, core) path; each of `pkgcnt`, `nodecnt`, `corecnt` grows by one exactly when its prefix was new; `cpucnt` grows by one |
| `Hierarchy.TreeOfAppend` | pepclibs/CPUInfo.py:294-316 | the tree of one more online line is the old tree with that line's path inserted |
| `Hierarchy.CountsAppend` | pepclibs/CPUInfo.py:304-305 | a counter grows with an online line exactly when the line's prefix at that level is new |
| `Hierarchy.PresentTreeOf` | pepclibs/CPUInfo.py:294-316 | a path exists in `pkgs` exactly when some online line has it, and `pkgs[p][n][c]` is the list of the CPUs of the online lines with that path, in input order |
| `Hierarchy.InCpusUnder` | pepclibs/CPUInfo.py:311-313 | a CPU is in the list under a path exactly when an online line has that path and CPU |
| `Hierarchy.PresentIsPrefix` | pepclibs/CPUInfo.py:304-309 | a path is in the tree exactly when it is a prefix of an online line's path |
| `Hierarchy.TreeOfNothing` | pepclibs/CPUInfo.py:349-367 | with no online line the tree is `{}` and all counters are 0 |
| `Flattening.FlattenToLevel` | pepclibs/CPUInfo.py:318-334 | on a full hierarchy (every dict below the top and every list non-empty, the only kind `get_cpu_geometry` builds), returns the items unchanged at index 0 and otherwise the flattening function |
| `Flattening.FlattenValues` | pepclibs/CPUInfo.py:323-334 | the loop over `items.values()` keeps `result` equal to the flattening of the keys seen so far, so it ends with the flattening of the whole dict |
| `Flattening.MergeInto` | pepclibs/CPUInfo.py:325-331 | one loop step appends a list to `result` (which becomes a list if still empty) or merges a dict into it with `update`; its precondition admits exactly the shape combinations on which Python raises no `TypeError` or `AttributeError` |
| `Flattening.StepFits` | pepclibs/CPUInfo.py:325-331 | on a full hierarchy every step meets shapes that fit: a dict is never merged into a list, and a list is never added to a non-empty dict |
| `Flattening.FlattenIsFromEntries` | pepclibs/CPUInfo.py:324-332 | above the bottom, flattening is the dict built from all items at that depth in iteration order: the last item wins for a repeated key |
| `Flattening.FlattenBottom` | pepclibs/CPUInfo.py:327-330 | at the bottom, flattening concatenates every CPU list in iteration order, or gives `{}` for an empty tree |
| `PartialHierarchy.FlattenedKeys` | pepclibs/CPUInfo.py:385-386 | the keys of `pkgs`, `nodes` and `cores` are each level's numbers of the online lines, each once |
| `PartialHierarchy.FlattenedValue` | pepclibs/CPUInfo.py:332 | the value a flattened dict keeps for a key is the subtree of one of the paths that end in that key |
| `PartialHierarchy.FlattenedCpus` | pepclibs/CPUInfo.py:327-330 | `cpus` is `{}` exactly when no CPU is online; otherwise it is a list with the same multiset as the online lines' CPU numbers |
| `PartialHierarchy.PkgCount` | pepclibs/CPUInfo.py:304-305 | `pkgcnt` equals the number of keys of `pkgs` |
| `PartialHierarchy.CpuCount` | pepclibs/CPUInfo.py:312-314 | `cpucnt` equals the number of CPUs in the lists at the bottom of `pkgs` |
| `CpuGeometry.Ratio` | pepclibs/CPUInfo.py:416-419 | `int(a / b)` as the floor quotient, and 0 when `b` is 0 |
| `CpuGeometry.Ratios` | pepclibs/CPUInfo.py:409-419 | exactly the pairs from node..cpu over pkg..core with different levels, each the ratio of their counters |
| `CpuGeometry.ParseLine` | pepclibs/CPUInfo.py:370-381 | one line: a comment is skipped, an offline CPU is appended to `offcpus` and counted, an online CPU goes through `_add_nums` |
| `CpuGeometry.ParseLines` | pepclibs/CPUInfo.py:369-381 | the parse loop yields the tree, counters and offline list of all lines, with `offcpucnt == |offcpus|` |
| `CpuGeometry.AppendNotOnline` | pepclibs/CPUInfo.py:371-379 | a comment or offline line changes neither the tree nor the counters |
| `CpuGeometry.MakeView` | pepclibs/CPUInfo.py:395-407 | the grouping and range loops of one level compute that level's view |
| `CpuGeometry.BuildGeometry` | pepclibs/CPUInfo.py:346-421 | the whole build computes the geometry of the lines |
| `CpuGeometry.GeometrySorted` | pepclibs/CPUInfo.py:388-391 | `pkgs_sorted`, `nodes_sorted` and `cores_sorted` are each level's numbers, ascending and unique; `cpus_sorted` is the online CPU numbers sorted |
| `CpuGeometry.GeometryViews` | pepclibs/CPUInfo.py:393-407 | for every level and for the offline CPUs, the groups split the sorted list into maximal runs, and the range tokens expand back to the sorted list |
| `CpuGeometry.GeometryOffline` | pepclibs/CPUInfo.py:376-378 | `offcpus` holds exactly the CPU numbers of the offline lines; `offcpucnt` is its length; `offcpus_sorted` is it sorted |
| `CpuGeometry.GeometryCounts` | pepclibs/CPUInfo.py:359-381 | `pkgcnt` = number of packages, `nodecnt` / `corecnt` = number of distinct (p,n) / (p,n,c) paths, `cpucnt` = number of online lines = number of CPUs in the tree |
| `CpuGeometry.CoresCollide` | pepclibs/CPUInfo.py:332 | two packages with a core 0 each count two cores, but `cores` keeps one key holding the later package's CPUs |
| `Ranges.RunsPartition` | pepclibs/CPUInfo.py:397-402 | the groups concatenate to the input, each is non-empty and consecutive, and no group continues into the next |
| `Ranges.GroupConsecutive` | pepclibs/CPUInfo.py:401-402 | the grouping loop computes those runs |
| `Ranges.RangeTokens` | pepclibs/CPUInfo.py:403-407 | the range loop emits one token per group, and each token reads back as its group |
| `Ranges.ParseTokenOfToken` | pepclibs/CPUInfo.py:404-407 | the token of a consecutive group reads back as exactly that group, so a token loses nothing |
| `Ranges.ExpandTokensOfRuns` | pepclibs/CPUInfo.py:393-407 | expanding the range tokens of the runs of any list gives that list back |
| `Ranges.ParseNatToString` | pepclibs/CPUInfo.py:405 | `str()` of a number reads back as that number |
| `Pepc.IndexOf` | pepclibs/pepc.py:59 | `uargs.index(x)` is the position of the first occurrence |
| `Pepc.RemoveFirst` | pepclibs/pepc.py:64-65 | `uargs.remove(x)` takes away the first occurrence of `x` and keeps the other elements in order, and leaves a list without `x` as it is |
| `Pepc.TakeValue` | pepclibs/pepc.py:59-65 | "value required" exactly when the option is last or the next token starts with `-`; otherwise `dest` is set to the next token, and the first occurrence of the value and then that of the option name are removed, the rest keeping its order |
| `Pepc.StepMap` | pepclibs/pepc.py:51-65 | one option sets only its own destination, to a given argument without a leading dash |
| `Pepc.ExtractionSize` | pepclibs/pepc.py:51-65 | after the loop the leftover arguments are a sub-multiset of the unknown ones, shorter by an even number and by at most two per option |
| `Pepc.ExtractionMap` | pepclibs/pepc.py:51-65 | the loop changes only the options' destinations, each to an unknown argument without a leading dash |
| `Pepc.ExtractionErr` | pepclibs/pepc.py:59-61 | the loop fails only with "value required" for one of the options' names |
| `Pepc.ParseUnknownSpec` | pepclibs/pepc.py:44-69 | no unknown arguments gives the namespace unchanged; on success there are an even number of unknown arguments, at most two per option, and only the options' attributes change, each to an unknown argument; failure is a missing value or leftover arguments "unrecognized", all of them unknown ones |
| `Pepc.ExtractionUses` | pepclibs/pepc.py:51-65 | after the loop every unknown argument is left over, is an option's name, or is the value an option's attribute now holds |
| `Pepc.ExtractionTokens` | pepclibs/pepc.py:51-65 | after the loop the unknown arguments are, as a multiset, exactly the leftovers plus the names and values the loop took out in this run |
| `Pepc.ConsumedNames` | pepclibs/pepc.py:52-61 | each (option, name, value) the loop took names one of the options by its short or long spelling, with a value that does not start with `-` |
| `Pepc.ConsumedStored` | pepclibs/pepc.py:63 | for options with distinct attributes, each value taken is what its option's attribute holds at the end |
| `Pepc.ParseUnknownUsesAll` | pepclibs/pepc.py:51-69 | success uses up every unknown argument: as a multiset they are exactly the names and values the loop took out in this run, whatever the namespace held before; each name is a spelling of its option, and for options with distinct attributes each value is what that attribute holds in the result |
| `Pepc.TakeOption` | pepclibs/pepc.py:51-65 | one iteration of the option loop: the short name is checked before the long one |
| `Pepc.ParseArgs` | pepclibs/pepc.py:44-69 | the method computes the extraction and the leftover check |
| `Pepc.Selected` | pepclibs/pepc.py:104-133 | the selection of `get_cpus`: a failing option's error is the result, and a successful selection holds no duplicates |
| `Pepc.SelectedOnline` | pepclibs/pepc.py:117-128 | the selected CPUs hold no duplicates and only online CPUs |
| `Pepc.SelectedCovers` | pepclibs/pepc.py:117-128 | every CPU named by `--cpus`, and every online CPU of a named core or package, is selected |
| `Pepc.InRequests` | pepclibs/pepc.py:118-123 | the requests succeed only when each given option does, and then hold exactly the CPUs of each |
| `Pepc.SelectedDefault` | pepclibs/pepc.py:125-126 | with no option given, the selection is `get_cpu_list(default_cpus)`, or empty when there is no default |
| `Pepc.GetCpus` | pepclibs/pepc.py:104-133 | the method computes the selection: `--cpus`, then `--cores`, then `--packages`, the default only when that is empty, then `list_dedup`; when no option and no default is given `CPUInfo` is not asked and its cache and run count are unchanged, otherwise the output is afterwards cached and the command ran once more only if nothing was cached |
| `Pepc.InSiblings` | pepclibs/pepc.py:153-155 | the collected siblings are exactly the CPUs that are not first in their core list |
| `Pepc.SiblingsToOffline` | pepclibs/pepc.py:152-157 | the loop's result is exactly the selected CPUs that are later CPUs of some core list |
| `Pepc.FirstSiblingStays` | pepclibs/pepc.py:154-155 | when no CPU is in two core lists, the first CPU of each core list is never offlined |
| `Pepc.CoreListOfLines` | pepclibs/pepc.py:152-155 | each list of `cpugeom["cores"]` is the CPUs of the online lines of one (package, node, core) path, in input order |
| `Pepc.SiblingChoiceSpec` | pepclibs/pepc.py:157-163 | the offlined set is exactly the selected siblings; the warning is given exactly when no selected CPU is a sibling |
| `Pepc.ChooseSiblings` | pepclibs/pepc.py:157-163 | the loop's decision is the sibling choice: offline the selected siblings, or warn when there are none |
| `Pepc.OfflinePlan` | pepclibs/pepc.py:146-163 | the decision fails exactly when selecting the CPUs (default all) fails, with that error; without `--siblings` it offlines the selection, with it the decision is a sibling choice |
| `Pepc.SiblingPlan` | pepclibs/pepc.py:152-157 | with `--siblings`, the decision is the sibling choice over the lists of `cpugeom["cores"]` |
| `Pepc.SiblingPlanSpec` | pepclibs/pepc.py:141-163 | every CPU offlined by the sibling rule was selected and is online, and comes after another CPU of the same (package, node, core) path |
| `Pepc.HotplugOffline` | pepclibs/pepc.py:141-163 | the method selects the CPUs (default all), and with `--siblings` reads the geometry and picks the siblings; the output is afterwards cached and the command ran once more only if nothing was cached; with `--siblings` and a valid selection `cpugeom` holds the geometry of the output, otherwise it is unchanged |
| `Pepc.Lower` | pepclibs/pepc.py:91 | `scope.lower()` keeps the length and lower-cases each ASCII capital, leaving every other character as it is |
| `Pepc.ScopeMsg` | pepclibs/pepc.py:84-102 | an error exactly when the lower-cased scope is not cpu, core or package |
| `Pepc.ScopeCaseInsensitive` | pepclibs/pepc.py:90-92 | a scope and its lower-case spelling are accepted or rejected together |
| `Pepc.AllOf` | pepclibs/pepc.py:94-95 | the list `get_cpus`, `get_cores` or `get_packages` returns for an accepted scope: every online ID of that level, each once |
| `Pepc.ScopeMsgAll` | pepclibs/pepc.py:97-98 | for every accepted scope, in any letter case, `"all"`/None and the full list of that scope's IDs both report "all" followed by the scope as the caller spelled it and "s" |
| `Pepc.ScopeMsgPartial` | pepclibs/pepc.py:99-100 | for every accepted scope, any list other than the full one is reported as the scope followed by "(s): " and its range tokens |
| `Pepc.ScopeMsgDefault` | pepclibs/pepc.py:84-98 | with the default scope "CPU", `"all"` reports "for all CPUs" |
| `Pepc.BoolFmt` | pepclibs/pepc.py:328-331 | "yes" exactly for true, "no" exactly for false |

## Left out

- Running `lscpu` and the command-execution layer (`Procs`/`SSH`): the output is a constructor
  parameter of `CPUInfo`.
- Splitting a line at the commas and `int()` on its fields: the model takes pre-split lines, so
  the `ValueError`/`IndexError` of a malformed line is not modelled. IDs are natural numbers.
- `get_lscpu_info` (regex parsing of `lscpu`), the CPU model table and `CPU_DESCR`: static data
  and regular expressions with no bearing on the topology queries.
- `close`, `__enter__` and `__exit__`: resource plumbing. The `hostmsg` suffix of error
  messages is also left out.
- `ArgParse.parse_int_list` is not part of this model. Its result is taken to be the requested
  integers sorted and de-duplicated (`Lists.SortedUnique`), and the textual range syntax is not
  parsed. `Trivial.list_dedup` is modelled as first-occurrence de-duplication. `Human.rangify`
  is modelled as the range tokens joined with commas.
- `ArgParse.SSH_OPTIONS` is a parameter: a list of (short, long, dest) triples.
  `parse_known_args` is not modelled; its (namespace, unknown arguments) result is the input.
- `khz_fmt`, `print_*`, the other `*_command` bodies, `build_arguments_parser`,
  `parse_arguments`, `get_proc` and `main`: floating point, logging, argparse set-up and calls
  into modules that are not part of this model (`CPUIdle`, `CPUFreq`, `ASPM`, `CPUOnline`,
  `MSR`).
- `Pepc.HotplugOffline`: stops at the decision. The offlining itself (`CPUOnline.offline`) and
  the warning text are not modelled.
- `Pepc.Lower`: models `str.lower()` on the ASCII letters A to Z only. Unicode case mappings
  such as U+212A KELVIN SIGN to 'k', or 'İ' lowercasing to two characters, are not modelled, so
  `Pepc.ScopeMsg` rejects a scope that Python would accept, and `|Lower(s)| == |s|` does not
  hold in Python for such strings. Only pepclibs/pepc.py:206 passes a literal scope, the default
  "CPU". The other callers (pepclibs/pepc.py:293-295 and 455-496) pass the scope taken from
  `CPUIdle.FEATURES` or `pstates.get_scope()`, which are not part of this model, so whether those
  are ASCII is not shown.
- `Pepc.ParseUnknownUsesAll`: ties each value taken to its option's attribute in the result only
  for options that set distinct attributes. With two options sharing one, the later value
  overwrites the earlier one. The multiset accounting of the unknown arguments holds without
  this condition.
  `ArgParse.SSH_OPTIONS` is not part of this model.
- `Flattening.Merge`: is total. On the two combinations where Python raises, it does not fail.
  A list added to a non-empty dict replaces the dict, and a dict merged into a list keeps the
  list. `Flattening.StepFits` shows the source never reaches that case on
  the hierarchies it builds.
- The ratios use floor division on naturals, with 0 for a zero divisor. This matches `int()` of a
  float quotient of non-negative counters, except for float rounding on huge counters.
- A `MalformedTopology` check for colliding node or core numbers across packages: the code has
  none, and the model reproduces its last-branch-wins merge instead.
