/*
 * The simulation base class (helper/Simulation.py): a table of simulation
 * data, a configuration table, a registry of named graphs and the main loop
 * driven by two hooks.
 *
 * The drawing library (graphs, curves, `rate`) and console logging are not
 * modelled: a graph is the record of the arguments it was created with, and
 * the hooks of the main loop are functions on an abstract state.
 */
module Simulations {
  import opened Wrappers
  import opened Vectors
  import PhysicalObjects

  /** The log levels the simulation refers to (helper/LogLevel.py is not part of this model). */
  datatype LogLevel = Essential | Everything

  /** A value stored in the simulation data or the configuration. */
  datatype Value =
    | NoneValue
    | Number(n: real)
    | Flag(b: bool)
    | Level(level: LogLevel)
    | ObjectTable(objects: map<string, PhysicalObjects.Sphere>)

  /** The exceptions the simulation raises. */
  datatype SimError =
    | MissingSimData  // increment of sim data that is absent or None
    | NotANumber      // arithmetic on a value that is not a number (a type error)
    | NotATable       // the physical-object entry is not a table
    | MissingConfig   // write to a config option that is absent or None
    | NamelessGraph   // graph creation without a name
    | DuplicateGraph  // graph creation with a name already in use

  /** Dictionary lookup with None for a missing key. */
  function Lookup(m: map<string, Value>, key: string): Value {
    if key in m then m[key] else NoneValue
  }

  /** The number a value stands for in arithmetic; a boolean counts as 0 or 1. */
  function NumericValue(v: Value): Option<real> {
    match v
    case Number(n) => Some(n)
    case Flag(b) => Some(if b then 1.0 else 0.0)
    case _ => None
  }

  // ---------------------------------------------------------------------
  // Graph records
  // ---------------------------------------------------------------------

  /** A graph entry: its name and the arguments its graph and curve were created with. */
  datatype Graph = Graph(
    name: string,
    title: string, xTitle: string, yTitle: string,
    width: int, height: int,
    xMin: real, xMax: real, yMin: real, yMax: real,
    foreground: Vec3, background: Vec3, curveColor: Vec3)

  /** The keyword arguments of graph creation; None is an omitted argument. */
  datatype GraphArgs = GraphArgs(
    name: Option<string>,
    title: Option<string>, xTitle: Option<string>, yTitle: Option<string>,
    width: Option<int>, height: Option<int>,
    xMin: Option<real>, xMax: Option<real>, yMin: Option<real>, yMax: Option<real>,
    foreground: Option<Vec3>, background: Option<Vec3>, curveColor: Option<Vec3>,
    toRecreate: Option<Graph>)

  /** Arguments that only name a graph, or only carry an entry to recreate. */
  function NameOnly(name: Option<string>, toRecreate: Option<Graph>): GraphArgs {
    GraphArgs(name, None, None, None, None, None, None, None, None, None, None, None, None, toRecreate)
  }

  function OrElse<T>(o: Option<T>, default: T): T {
    if o.Some? then o.value else default
  }

  /** A new entry from the arguments, with the source's defaults for the omitted ones. */
  function NewGraph(name: string, args: GraphArgs): (r: Graph)
    ensures r.name == name
    ensures args.title.Some? ==> r.title == args.title.value
    ensures args.title.None? ==> r.title == "No title"
    ensures args.xTitle.Some? ==> r.xTitle == args.xTitle.value
    ensures args.xTitle.None? ==> r.xTitle == "No x title"
    ensures args.yTitle.Some? ==> r.yTitle == args.yTitle.value
    ensures args.yTitle.None? ==> r.yTitle == "No y title"
    ensures args.width.Some? ==> r.width == args.width.value
    ensures args.width.None? ==> r.width == 800
    ensures args.height.Some? ==> r.height == args.height.value
    ensures args.height.None? ==> r.height == 240
    ensures args.xMin.Some? ==> r.xMin == args.xMin.value
    ensures args.xMin.None? ==> r.xMin == -10.0
    ensures args.xMax.Some? ==> r.xMax == args.xMax.value
    ensures args.xMax.None? ==> r.xMax == 10.0
    ensures args.yMin.Some? ==> r.yMin == args.yMin.value
    ensures args.yMin.None? ==> r.yMin == -10.0
    ensures args.yMax.Some? ==> r.yMax == args.yMax.value
    ensures args.yMax.None? ==> r.yMax == 10.0
    ensures args.foreground.Some? ==> r.foreground == args.foreground.value
    ensures args.foreground.None? ==> r.foreground == Vec3(0.0, 0.0, 0.0)
    ensures args.background.Some? ==> r.background == args.background.value
    ensures args.background.None? ==> r.background == Vec3(1.0, 1.0, 1.0)
    ensures args.curveColor.Some? ==> r.curveColor == args.curveColor.value
    ensures args.curveColor.None? ==> r.curveColor == Vec3(0.0, 0.0, 0.0)
  {
    Graph(name,
      OrElse(args.title, "No title"), OrElse(args.xTitle, "No x title"), OrElse(args.yTitle, "No y title"),
      OrElse(args.width, 800), OrElse(args.height, 240),
      OrElse(args.xMin, -10.0), OrElse(args.xMax, 10.0), OrElse(args.yMin, -10.0), OrElse(args.yMax, 10.0),
      OrElse(args.foreground, Vec3(0.0, 0.0, 0.0)), OrElse(args.background, Vec3(1.0, 1.0, 1.0)),
      OrElse(args.curveColor, Vec3(0.0, 0.0, 0.0)))
  }

  /** A graph created from its name alone has every default of the source. */
  lemma NewGraphDefaults(name: string)
    ensures NewGraph(name, NameOnly(Some(name), None)) ==
            Graph(name, "No title", "No x title", "No y title", 800, 240, -10.0, 10.0, -10.0, 10.0,
                  Vec3(0.0, 0.0, 0.0), Vec3(1.0, 1.0, 1.0), Vec3(0.0, 0.0, 0.0))
  {
  }

  /** No two entries share a name. */
  ghost predicate UniqueNames(graphs: seq<Graph>) {
    forall i, j :: 0 <= i < j < |graphs| ==> graphs[i].name != graphs[j].name
  }

  /** The first entry with the given name, if any. */
  function FindGraphByName(graphs: seq<Graph>, name: string): (r: Option<Graph>)
    ensures r.Some? ==> r.value in graphs && r.value.name == name
    ensures r.None? <==> forall g :: g in graphs ==> g.name != name
    ensures r.Some? ==> exists i :: 0 <= i < |graphs| && graphs[i] == r.value &&
                          forall j :: 0 <= j < i ==> graphs[j].name != name
  {
    if |graphs| == 0 then None
    else if graphs[0].name == name then Some(graphs[0])
    else
      var r := FindGraphByName(graphs[1..], name);
      if r.Some? then
        var i :| 0 <= i < |graphs[1..]| && graphs[1..][i] == r.value &&
                 forall j :: 0 <= j < i ==> graphs[1..][j].name != name;
        assert graphs[i + 1] == r.value;
        assert forall j :: 0 <= j < i + 1 ==> graphs[j].name != name;
        r
      else
        r
  }

  /** With unique names, the entry found under an entry's own name is that entry. */
  lemma {:induction false} FindUniqueEntry(graphs: seq<Graph>, i: int)
    requires UniqueNames(graphs) && 0 <= i < |graphs|
    ensures FindGraphByName(graphs, graphs[i].name) == Some(graphs[i])
  {
    if i > 0 {
      assert graphs[0].name != graphs[i].name;
      assert UniqueNames(graphs[1..]) by {
        forall a, b | 0 <= a < b < |graphs[1..]|
          ensures graphs[1..][a].name != graphs[1..][b].name
        {
          assert graphs[1..][a] == graphs[a + 1] && graphs[1..][b] == graphs[b + 1];
        }
      }
      FindUniqueEntry(graphs[1..], i - 1);
    }
  }

  /** Appending an entry under an unused name keeps the names unique. */
  lemma AppendKeepsNamesUnique(graphs: seq<Graph>, g: Graph)
    requires UniqueNames(graphs) && FindGraphByName(graphs, g.name).None?
    ensures UniqueNames(graphs + [g])
  {
    var gs := graphs + [g];
    forall i, j | 0 <= i < j < |gs|
      ensures gs[i].name != gs[j].name
    {
      if j == |graphs| {
        assert gs[i] in graphs;
      }
    }
  }

  // ---------------------------------------------------------------------
  // The simulation
  // ---------------------------------------------------------------------

  class Simulation {
    var graphs: seq<Graph>
    var simData: map<string, Value>
    var config: map<string, Value>

    /**
     * A new simulation.  `initialGraphs` is what the subclass's graph hook
     * returns; the sim data holds only an empty table of physical objects,
     * and the configuration exactly the three options given.
     */
    constructor (initialGraphs: seq<Graph>, autoRun: bool := false, paused: bool := false,
                 logLevel: LogLevel := Essential)
      ensures graphs == initialGraphs
      ensures simData == map["physical_objects" := ObjectTable(map[])]
      ensures config == map["auto_run" := Flag(autoRun), "paused" := Flag(paused), "log_level" := Level(logLevel)]
    {
      graphs := initialGraphs;
      simData := map["physical_objects" := ObjectTable(map[])];
      config := map["auto_run" := Flag(autoRun), "paused" := Flag(paused), "log_level" := Level(logLevel)];
    }

    /** The stored value, or None when the name is absent. */
    function GetSimData(name: string): (r: Value)
      reads this
      ensures name in simData ==> r == simData[name]
      ensures name !in simData ==> r == NoneValue
    {
      Lookup(simData, name)
    }

    /** Overwrites one entry of the sim data. */
    method SetSimData(name: string, value: Value)
      modifies this`simData
      ensures simData == old(simData)[name := value]
      ensures GetSimData(name) == value
      ensures forall other :: other != name ==> GetSimData(other) == old(GetSimData(other))
    {
      simData := simData[name := value];
    }

    /** Adds `amount` to a stored number; fails for a missing or None entry or a non-number. */
    method IncrSimData(name: string, amount: real := 1.0) returns (r: Outcome<SimError>)
      modifies this`simData
      ensures old(GetSimData(name)) == NoneValue ==> r == Fail(MissingSimData)
      ensures old(GetSimData(name)) != NoneValue && NumericValue(old(GetSimData(name))).None? ==>
                r == Fail(NotANumber)
      ensures r.Fail? ==> unchanged(this)
      ensures r.Ok? <==> NumericValue(old(GetSimData(name))).Some?
      ensures r.Ok? ==> simData == old(simData)[name := Number(NumericValue(old(GetSimData(name))).value + amount)]
    {
      var current := GetSimData(name);
      if current == NoneValue {
        return Fail(MissingSimData);
      }
      var n := NumericValue(current);
      if n.None? {
        return Fail(NotANumber);
      }
      SetSimData(name, Number(n.value + amount));
      r := Ok;
    }

    /** The target multiplied by the stored factor; a factor that is not a number fails. */
    function ScaleBySimData(target: real, factor: string): (r: Result<real, SimError>)
      reads this
      ensures r.Success? <==> NumericValue(GetSimData(factor)).Some?
      ensures r.Success? ==> r.value == target * NumericValue(GetSimData(factor)).value
      ensures r.Failure? ==> r.error == NotANumber
    {
      var f := NumericValue(GetSimData(factor));
      if f.None? then Failure(NotANumber) else Success(target * f.value)
    }

    /** The table of physical objects, when the entry holds one. */
    function Objects(): Option<map<string, PhysicalObjects.Sphere>>
      reads this
    {
      var t := GetSimData("physical_objects");
      if t.ObjectTable? then Some(t.objects) else None
    }

    /** Inserts or replaces one entry of the physical-object table. */
    method AddObject(name: string, obj: PhysicalObjects.Sphere) returns (r: Outcome<SimError>)
      modifies this`simData
      ensures r.Ok? <==> old(Objects()).Some?
      ensures r.Fail? ==> r.error == NotATable && unchanged(this)
      ensures r.Ok? ==> Objects() == Some(old(Objects()).value[name := obj])
      ensures r.Ok? ==> simData == old(simData)["physical_objects" := ObjectTable(old(Objects()).value[name := obj])]
      ensures forall other :: other != "physical_objects" ==> GetSimData(other) == old(GetSimData(other))
    {
      var t := GetSimData("physical_objects");
      if !t.ObjectTable? {
        return Fail(NotATable);
      }
      SetSimData("physical_objects", ObjectTable(t.objects[name := obj]));
      r := Ok;
    }

    /** The configured value, or None when the option is absent. */
    function GetConfig(name: string): (r: Value)
      reads this
      ensures name in config ==> r == config[name]
      ensures name !in config ==> r == NoneValue
    {
      Lookup(config, name)
    }

    /** The option currently holds the given value; an absent option holds None. */
    predicate CheckConfig(name: string, value: Value): (r: bool)
      reads this
      ensures r <==> (name in config && config[name] == value) || (name !in config && value == NoneValue)
    {
      GetConfig(name) == value
    }

    /** Replaces an existing option; an absent or None-valued option fails. */
    method SetConfig(name: string, value: Value) returns (r: Outcome<SimError>)
      modifies this`config
      ensures r.Ok? <==> old(GetConfig(name)) != NoneValue
      ensures r.Fail? ==> r.error == MissingConfig && unchanged(this)
      ensures r.Ok? ==> config == old(config)[name := value] && CheckConfig(name, value)
      ensures forall other :: other != name ==> GetConfig(other) == old(GetConfig(other))
    {
      if GetConfig(name) == NoneValue {
        return Fail(MissingConfig);
      }
      config := config[name := value];
      r := Ok;
    }

    /**
     * Registers one graph.  A nameless or already-used name fails; otherwise
     * exactly one entry is appended: the one to recreate when given, else a
     * new one from the arguments.
     */
    method CreateGraph(args: GraphArgs) returns (r: Outcome<SimError>)
      modifies this`graphs
      ensures args.name.None? ==> r == Fail(NamelessGraph)
      ensures args.name.Some? && FindGraphByName(old(graphs), args.name.value).Some? ==> r == Fail(DuplicateGraph)
      ensures r.Ok? <==> args.name.Some? && FindGraphByName(old(graphs), args.name.value).None?
      ensures r.Fail? ==> unchanged(this)
      ensures r.Ok? && args.toRecreate.Some? ==> graphs == old(graphs) + [args.toRecreate.value]
      ensures r.Ok? && args.toRecreate.None? ==> graphs == old(graphs) + [NewGraph(args.name.value, args)]
      ensures (r.Ok? && old(UniqueNames(graphs)) &&
               (args.toRecreate.None? || args.toRecreate.value.name == args.name.value)) ==> UniqueNames(graphs)
    {
      if args.name.None? {
        return Fail(NamelessGraph);
      }
      var name := args.name.value;
      if FindGraphByName(graphs, name).Some? {
        return Fail(DuplicateGraph);
      }
      var entry := if args.toRecreate.Some? then args.toRecreate.value else NewGraph(name, args);
      if UniqueNames(graphs) && entry.name == name {
        AppendKeepsNamesUnique(graphs, entry);
      }
      graphs := graphs + [entry];
      r := Ok;
    }

    /**
     * Empties the registry and recreates each saved entry, as written: the
     * recreation passes no name, so the first one fails and every entry is
     * lost.
     */
    method ResetGraphs() returns (r: Outcome<SimError>)
      modifies this`graphs
      ensures graphs == []
      ensures r == (if old(graphs) == [] then Ok else Fail(NamelessGraph))
    {
      var saved := graphs;
      graphs := [];
      r := Ok;
      // The loop over the saved entries ends at the first recreation,
      // which raises because it is given no name.
      if |saved| > 0 {
        r := CreateGraph(NameOnly(None, Some(saved[0])));
      }
    }

    /**
     * ResetGraphs as evidently intended: each saved entry is recreated
     * under its own name, so a registry with unique names comes back
     * unchanged.
     */
    method ResetGraphsCorrected() returns (r: Outcome<SimError>)
      modifies this`graphs
      ensures r.Ok? <==> UniqueNames(old(graphs))
      ensures r.Ok? ==> graphs == old(graphs)
      ensures r.Fail? ==> r.error == DuplicateGraph && graphs < old(graphs)
    {
      var saved := graphs;
      graphs := [];
      r := Ok;
      var i := 0;
      while i < |saved|
        invariant 0 <= i <= |saved|
        invariant graphs == saved[..i] && r == Ok
        invariant UniqueNames(graphs)
      {
        if UniqueNames(saved) {
          assert FindGraphByName(saved[..i], saved[i].name).None? by {
            forall g | g in saved[..i]
              ensures g.name != saved[i].name
            {
              var k :| 0 <= k < i && saved[k] == g;
            }
          }
        }
        r := CreateGraph(NameOnly(Some(saved[i].name), Some(saved[i])));
        if r.Fail? {
          assert saved[..i] < saved;
          return;
        }
        assert saved[..i + 1] == saved[..i] + [saved[i]];
        i := i + 1;
      }
      assert saved[..i] == saved;
    }
  }

  /** Recreating the registry as written loses a non-empty registry. */
  method ResetLosesGraphs(g: Graph) returns (r: Outcome<SimError>, after: seq<Graph>)
    ensures r == Fail(NamelessGraph) && after == []
  {
    var sim := new Simulation([g]);
    r := sim.ResetGraphs();
    after := sim.graphs;
  }

  /** Recreating the registry as intended gives it back. */
  method ResetKeepsGraphsCorrected(g: Graph, h: Graph) returns (r: Outcome<SimError>, after: seq<Graph>)
    requires g.name != h.name
    ensures r == Ok && after == [g, h]
  {
    var sim := new Simulation([g, h]);
    r := sim.ResetGraphsCorrected();
    after := sim.graphs;
  }

  // ---------------------------------------------------------------------
  // The main loop
  // ---------------------------------------------------------------------

  /** Why the main loop ended. */
  datatype Stop = SentinelFalse | TickReturnedFalse | OutOfFuel

  /** The state after `k` ticks from `s`. */
  function Iterate<S>(tick: S -> S, s: S, k: nat): S {
    if k == 0 then s else tick(Iterate(tick, s, k - 1))
  }

  /**
   * The main loop: while the sentinel hook returns True, run the tick hook,
   * and stop right after the first tick that returns False.  `tick` is the
   * tick hook's effect on the state and `failed(s)` says whether the tick run
   * from `s` returns False.  `fuel` bounds the number of ticks.
   */
  method RunSimulationLoop<S>(sentinel: S -> bool, tick: S -> S, failed: S -> bool, start: S, fuel: nat)
    returns (final: S, steps: nat, stop: Stop)
    ensures steps <= fuel && final == Iterate(tick, start, steps)
    ensures forall k :: 0 <= k < steps ==> sentinel(Iterate(tick, start, k))
    ensures forall k :: 0 <= k < steps - 1 ==> !failed(Iterate(tick, start, k))
    ensures stop == SentinelFalse ==> !sentinel(final) && (steps == 0 || !failed(Iterate(tick, start, steps - 1)))
    ensures stop == TickReturnedFalse ==> steps > 0 && failed(Iterate(tick, start, steps - 1))
    ensures stop == OutOfFuel ==> steps == fuel && (steps == 0 || !failed(Iterate(tick, start, steps - 1)))
  {
    final, steps, stop := start, 0, OutOfFuel;
    while steps < fuel
      invariant steps <= fuel && final == Iterate(tick, start, steps)
      invariant forall k :: 0 <= k < steps ==> sentinel(Iterate(tick, start, k)) && !failed(Iterate(tick, start, k))
    {
      if !sentinel(final) {
        stop := SentinelFalse;
        return;
      }
      var returnedFalse := failed(final);
      final := tick(final);
      steps := steps + 1;
      if returnedFalse {
        stop := TickReturnedFalse;
        return;
      }
    }
  }
}
