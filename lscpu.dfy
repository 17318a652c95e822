/** The input of the topology engine: the lines of `lscpu --all -p=socket,node,core,cpu,online`
    (pepclibs/CPUInfo.py:142), the four topology levels, and ID-list arguments. */
module Lscpu {
  import opened Base

  /** One output line, already split at the commas and converted with int().
      A line starting with '#' is a comment. A line whose last field is "Y" is an online CPU with
      its package, node, core and CPU numbers; any other last field marks an offline CPU, of
      which only the CPU number is read. */
  datatype Line =
    | Comment
    | Online(pkg: nat, node: nat, core: nat, cpu: nat)
    | Offline(cpu: nat)

  /** `LEVELS = ("pkg", "node", "core", "cpu")`, coarsest first (pepclibs/CPUInfo.py:80). */
  datatype Level = Pkg | Node | Core | Cpu

  const LevelNames: seq<string> := ["pkg", "node", "core", "cpu"]

  /** `LEVELS.index(...)`. */
  function Index(lvl: Level): (i: nat)
    ensures i < |LevelNames|
  {
    match lvl
    case Pkg => 0
    case Node => 1
    case Core => 2
    case Cpu => 3
  }

  /** The level called `name`, if it is one of `LEVELS`. */
  function LevelOf(name: string): (r: Option<Level>)
    ensures r.Some? <==> name in LevelNames
    ensures r.Some? ==> LevelNames[Index(r.value)] == name
  {
    if name == "pkg" then Some(Pkg)
    else if name == "node" then Some(Node)
    else if name == "core" then Some(Core)
    else if name == "cpu" then Some(Cpu)
    else None
  }

  /** The online line's number at level `lvl`. */
  function Coord(l: Line, lvl: Level): nat
    requires l.Online?
  {
    match lvl
    case Pkg => l.pkg
    case Node => l.node
    case Core => l.core
    case Cpu => l.cpu
  }

  /** An ID-list argument: `All` stands for both None and "all"; `NumList` holds the integers a
      textual list such as "0-3,8" denotes, before sorting and de-duplication. */
  datatype Nums = All | NumList(raw: seq<nat>)
}
