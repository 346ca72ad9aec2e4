/**
 * The build-system registry `ExternalBuildMgr`: discovery of `cargobuild-*`
 * plugins, lookup, the `targets` request/response exchange with a plugin,
 * the mapping of the plugin's target descriptors to host targets, and the
 * `toolchain_hash`, `outputs` and `compiler` extension points.
 */
module ExternalBuild {

  import opened Wrappers
  import opened Host
  import opened Naming
  import opened Discovery

  /** The noun in "Unknown build system <id>". */
  const BuildSystemNoun: string := "build system"

  /** What the host sends a plugin on standard input for the `targets` verb. */
  datatype TargetRequest = TargetRequest(packageName: string, packageRoot: string)

  datatype ExtTargetKind = BinKind | LibKind

  /** A target descriptor as the plugin reports it. */
  datatype ExtTarget = ExtTarget(kind: ExtTargetKind, name: string, srcPath: string)

  /** The plugin's reply to `targets`: exactly one of the two variants. */
  datatype TargetResult =
    | Success(targets: seq<ExtTarget>, warnings: seq<string>, errors: seq<string>)
    | Failure(message: string)

  /** `ExtTarget::mk_target`: a binary or library host target of the fixed 2021 edition. */
  function MkTarget(t: ExtTarget): (r: Result<Target, Error>)
    ensures r.Ok?
    ensures r.value.name == t.name && r.value.srcPath == t.srcPath && r.value.edition == Edition2021
    ensures r.value.BinTarget? <==> t.kind == BinKind
    ensures r.value.BinTarget? ==> r.value.requiredFeatures == None
    ensures r.value.LibTarget? ==> r.value.crateTypes == [CrateType.Lib]
  {
    match t.kind
    case BinKind => Ok(BinTarget(t.name, t.srcPath, None, Edition2021))
    case LibKind => Ok(LibTarget(t.name, [CrateType.Lib], t.srcPath, Edition2021))
  }

  /** The descriptor a host target was made from: the inverse of `MkTarget`. */
  function Describe(t: Target): ExtTarget {
    match t
    case BinTarget(name, srcPath, _, _) => ExtTarget(BinKind, name, srcPath)
    case LibTarget(name, _, srcPath, _) => ExtTarget(LibKind, name, srcPath)
  }

  /** `mk_target` loses nothing of the descriptor. */
  lemma MkTargetDescribe(t: ExtTarget)
    ensures Describe(MkTarget(t).value) == t
  {
  }

  /** Every descriptor mapped in order: what the conversion loop of `targets` yields. */
  function ConvertAll(descs: seq<ExtTarget>): (ts: seq<Target>)
    ensures |ts| == |descs|
    ensures forall i :: 0 <= i < |descs| ==> Describe(ts[i]) == descs[i]
  {
    seq(|descs|, i requires 0 <= i < |descs| => MkTarget(descs[i]).value)
  }

  /** The loop `for tgt in j_tgts { targets.push(tgt.mk_target()?) }`. */
  method ConvertTargets(descs: seq<ExtTarget>) returns (r: Result<seq<Target>, Error>)
    ensures r.Ok?
    ensures |r.value| == |descs|
    ensures forall i :: 0 <= i < |descs| ==> r.value[i] == MkTarget(descs[i]).value
  {
    var targets: seq<Target> := [];
    for i := 0 to |descs|
      invariant |targets| == i
      invariant forall k :: 0 <= k < i ==> targets[k] == MkTarget(descs[k]).value
    {
      var t := MkTarget(descs[i]);
      targets := targets + [t.value];
    }
    r := Ok(targets);
  }

  /**
   * What one `targets` exchange with a plugin process came to, step by
   * step: spawning, writing the request, reading standard output, parsing
   * it (`None` when it is not a `TargetResult`), waiting, and the exit status.
   */
  datatype Exchange = Exchange(
    spawned: bool,
    requestWritten: bool,
    responseRead: bool,
    body: Option<TargetResult>,
    waited: bool,
    status: ExitStatus)

  /** Spawning, writing the request and reading standard output all succeeded. */
  predicate ResponseRead(x: Exchange) {
    x.spawned && x.requestWritten && x.responseRead
  }

  /** Every process step succeeded, the body parsed and the plugin exited with code 0. */
  predicate Completed(x: Exchange) {
    ResponseRead(x) && x.body.Some? && x.waited && x.status.Success()
  }

  /** The outcome of `targets`: its result and what it appends to `warnings` and `errors`. */
  datatype Reply = Reply(result: Result<seq<Target>, Error>, warnings: seq<string>, errors: seq<string>)

  /** An error reply: nothing is appended to either accumulator. */
  function Failed(e: Error): Reply {
    Reply(Err(e), [], [])
  }

  /**
   * `Command::new(path).arg("targets")`: the command `targets` runs, with the
   * environment cleared, stdin and stdout piped and stderr discarded.
   */
  function TargetsCommand(runner: Plugin): (c: Command)
    ensures c.program == runner.path && c.args == ["targets"]
  {
    Command(runner.path, []).Arg("targets")
  }

  /**
   * The decision `targets` makes once the plugin at `path` has been run:
   * each process step is checked in order (launch, request, response,
   * parse, wait, exit status), and only then the in-band variant.
   */
  function ExchangeReply(path: PluginPath, x: Exchange): (r: Reply)
    // errors leave the caller's accumulators unchanged
    ensures r.result.Err? ==> r.warnings == [] && r.errors == []
    // success exactly when the exchange completed and the reply is Success
    ensures r.result.Ok? <==> Completed(x) && x.body.value.Success?
    // then one target per descriptor, in order, and the plugin's diagnostics
    ensures r.result.Ok? ==>
              && r.warnings == x.body.value.warnings
              && r.errors == x.body.value.errors
              && |r.result.value| == |x.body.value.targets|
              && forall i :: 0 <= i < |r.result.value| ==>
                   r.result.value[i] == MkTarget(x.body.value.targets[i]).value
    ensures !x.spawned ==> r.result == Err(CouldNotLaunch(path))
    ensures x.spawned && !x.requestWritten ==> r.result == Err(RequestNotWritten)
    ensures x.spawned && x.requestWritten && !x.responseRead ==> r.result == Err(ResponseNotRead)
    // a body that does not parse is reported whatever the exit status
    ensures ResponseRead(x) && x.body.None? ==> r.result == Err(InvalidTargetResult(path))
    ensures ResponseRead(x) && x.body.Some? && !x.waited ==> r.result == Err(FailedToTerminate(path))
    // a non-zero exit is reported even over a parsed Success body
    ensures ResponseRead(x) && x.body.Some? && x.waited && !x.status.Success() ==>
              r.result == Err(ExitedWith(path, x.status))
    // an in-band Failure after a zero exit is reported with exactly its message
    ensures Completed(x) && x.body.value.Failure? ==>
              r.result.Err? && r.result.error.Reported? && ErrorText(r.result.error) == x.body.value.message
  {
    if !x.spawned then Failed(CouldNotLaunch(path))
    else if !x.requestWritten then Failed(RequestNotWritten)
    else if !x.responseRead then Failed(ResponseNotRead)
    else if x.body.None? then Failed(InvalidTargetResult(path))
    else if !x.waited then Failed(FailedToTerminate(path))
    else if !x.status.Success() then Failed(ExitedWith(path, x.status))
    else
      match x.body.value
      case Success(targets, warnings, errors) => Reply(Ok(ConvertAll(targets)), warnings, errors)
      case Failure(message) => Failed(Reported(message))
  }

  /**
   * The whole of `targets`: look the plugin up, and only if it is known
   * run it (`child` is how the plugin process answers a command and a
   * request) and decide as `ExchangeReply` does.
   */
  function TargetsReply(plugins: map<string, Plugin>, id: string,
                        closestMsg: (string, set<string>) -> string,
                        child: (Command, TargetRequest) -> Exchange, req: TargetRequest): (r: Reply)
    // an unknown plugin is reported before anything is run, and appends nothing
    ensures id !in plugins ==>
              && r.result.Err? && r.result.error.Unknown?
              && r.result.error.noun == BuildSystemNoun && r.result.error.id == id
              && r.warnings == [] && r.errors == []
    // a known plugin is run with the verb "targets" on its own path
    ensures id in plugins ==>
              r == ExchangeReply(plugins[id].path, child(TargetsCommand(plugins[id]), req))
  {
    var runner := Lookup(plugins, BuildSystemNoun, id, closestMsg);
    if runner.Err? then Failed(runner.error)
    else ExchangeReply(runner.value.path, child(TargetsCommand(runner.value), req))
  }

  /** A caller-owned `Vec<String>` that `targets` appends to in place. */
  class StringVec {
    var items: seq<string>

    constructor (items: seq<string>)
      ensures this.items == items
    {
      this.items := items;
    }

    /** `Vec::append`: add `more` at the end, in order. */
    method Append(more: seq<string>)
      modifies this
      ensures items == old(items) + more
    {
      items := items + more;
    }
  }

  /** `ExternalBuildMgr`: the registry of build-system plugins, fixed once built. */
  class ExternalBuildMgr {
    /** Map from build-system identifiers to their plugins. */
    const buildSystems: map<string, Plugin>
    /** The platform whose executable suffix the scan used. */
    const platform: Platform
    /** `closest_msg`: the "did you mean" suffix for an unknown identifier. */
    const closestMsg: (string, set<string>) -> string
    /** The search directories the registry was built from. */
    ghost const searchPaths: seq<SearchDir>

    ghost predicate Valid() {
      buildSystems == Discover(searchPaths, platform)
    }

    /** `ExternalBuildMgr::new`: scan the search directories in order. */
    constructor (searchPaths: seq<SearchDir>, platform: Platform, closestMsg: (string, set<string>) -> string)
      ensures Valid()
      ensures this.searchPaths == searchPaths && this.platform == platform && this.closestMsg == closestMsg
    {
      var buildSystems := Scan(searchPaths, platform);
      this.buildSystems := buildSystems;
      this.platform := platform;
      this.closestMsg := closestMsg;
      this.searchPaths := searchPaths;
    }

    /** `build_system`: the registered plugin, or "Unknown build system <id>...". */
    function BuildSystem(id: string): (r: Result<Plugin, Error>)
      ensures r.Ok? <==> id in buildSystems
      ensures r.Ok? ==> r.value == buildSystems[id]
      ensures r.Err? ==> r.error.Unknown? && "Unknown build system " + id <= ErrorText(r.error)
    {
      Lookup(buildSystems, BuildSystemNoun, id, closestMsg)
    }

    /**
     * `targets`: run the plugin with the `targets` verb on the request built
     * from the package, and decide the result as `TargetsReply` does. `child`
     * is how the plugin process answers a command and a request.
     */
    method Targets(id: string, packageName: string, packageRoot: string,
                   child: (Command, TargetRequest) -> Exchange, warnings: StringVec, errors: StringVec)
      returns (r: Result<seq<Target>, Error>)
      requires warnings != errors
      modifies warnings, errors
      ensures var reply := TargetsReply(buildSystems, id, closestMsg, child, TargetRequest(packageName, packageRoot));
              && r == reply.result
              && warnings.items == old(warnings.items) + reply.warnings
              && errors.items == old(errors.items) + reply.errors
    {
      var runner :- BuildSystem(id);
      var command := TargetsCommand(runner);
      var x := child(command, TargetRequest(packageName, packageRoot));
      if !x.spawned {
        return Err(CouldNotLaunch(runner.path));
      }
      if !x.requestWritten {
        return Err(RequestNotWritten);
      }
      if !x.responseRead {
        return Err(ResponseNotRead);
      }
      if x.body.None? {
        return Err(InvalidTargetResult(runner.path));
      }
      var jsonResult := x.body.value;
      if !x.waited {
        return Err(FailedToTerminate(runner.path));
      }
      if !x.status.Success() {
        return Err(ExitedWith(runner.path, x.status));
      }
      match jsonResult
      case Success(jTargets, jWarnings, jErrors) =>
        // the `?` of the conversion loop never fires: `mk_target` always succeeds
        var converted := ConvertTargets(jTargets);
        var targets := converted.value;
        assert targets == ConvertAll(jTargets);
        warnings.Append(jWarnings);
        errors.Append(jErrors);
        return Ok(targets);
      case Failure(message) =>
        return Err(Reported(message));
    }

    /** `toolchain_hash`: the registered plugin's hash, which is always the placeholder 0. */
    function ToolchainHash(id: string): (r: Result<u64, Error>)
      requires Valid()
      ensures r.Ok? <==> id in buildSystems
      ensures r.Ok? ==> r.value == 0
      ensures r.Err? ==> r.error == BuildSystem(id).error
    {
      DiscoverEntries(searchPaths, platform);
      var runner :- BuildSystem(id);
      Ok(runner.hash)
    }

    /** `outputs`: always an empty list; no lookup is made, so an unknown id succeeds too. */
    function Outputs(id: string, unit: Unit): (r: Result<seq<OutputFile>, Error>)
      ensures r.Ok? && r.value == []
    {
      Ok([])
    }

    /** `compiler`: a command running the registered plugin with the single argument "build". */
    function Compiler(id: string): (r: Result<Command, Error>)
      ensures r.Ok? <==> id in buildSystems
      ensures r.Ok? ==> r.value.program == buildSystems[id].path && r.value.args == ["build"]
      ensures r.Err? ==> r.error == BuildSystem(id).error
    {
      var runner :- BuildSystem(id);
      Ok(runner.NewCommand().Arg("build"))
    }
  }
}
