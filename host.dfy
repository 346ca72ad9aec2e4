/**
 * Minimal stand-ins for the host build tool's types that the plugin
 * registries produce or consume: targets, editions, crate types, process
 * commands, paths, exit statuses and the errors the registries report.
 */
module Host {

  import opened Wrappers

  /** `u64`, the type of a toolchain hash. */
  newtype u64 = x: int | 0 <= x < 0x1_0000_0000_0000_0000

  datatype Edition = Edition2015 | Edition2018 | Edition2021

  datatype CrateType = Bin | Lib | Rlib | Dylib | Cdylib | Staticlib | ProcMacro

  /**
   * A host target as built by `Target::bin_target` and `Target::lib_target`:
   * the arguments of those two constructors, kept as they are passed.
   */
  datatype Target =
    | BinTarget(name: string, srcPath: string, requiredFeatures: Option<seq<string>>, edition: Edition)
    | LibTarget(name: string, crateTypes: seq<CrateType>, srcPath: string, edition: Edition)

  /** `dir.join(filename)`: a search directory joined with one file name. */
  datatype PluginPath = PluginPath(dir: string, fileName: string)

  /** A process builder: the program to run and its argument list. */
  datatype Command = Command(program: PluginPath, args: seq<string>) {
    /** `ProcessBuilder::arg`: append one argument. */
    function Arg(a: string): (c: Command)
      ensures c.program == program && c.args == args + [a]
    {
      Command(program, args + [a])
    }
  }

  /** The unit of work `outputs` is asked about; its contents are not used. */
  datatype Unit = Unit(packageName: string)

  /** A produced artifact. */
  datatype OutputFile = OutputFile(path: string)

  /** How a child process ended. */
  datatype ExitStatus = Exited(code: int) | Signalled(signal: int) {
    predicate Success() {
      Exited? && code == 0
    }
  }

  /** The errors the registries report, one variant per `format_err!`/`bail!`/`?` site. */
  datatype Error =
    | Unknown(noun: string, id: string, didYouMean: string)  // "Unknown <noun> <id><did_you_mean>"
    | CouldNotLaunch(path: PluginPath)                        // spawn failed
    | RequestNotWritten                                       // writing the JSON request failed
    | ResponseNotRead                                         // reading standard output failed
    | InvalidTargetResult(path: PluginPath)                   // body is not a TargetResult
    | FailedToTerminate(path: PluginPath)                     // waiting for the child failed
    | ExitedWith(path: PluginPath, status: ExitStatus)        // non-zero exit
    | Reported(message: string)                               // in-band Failure { message }

  /** The text of the two errors whose wording does not depend on how a path is displayed. */
  function ErrorText(e: Error): (t: string)
    requires e.Unknown? || e.Reported?
    ensures e.Reported? ==> t == e.message
    ensures e.Unknown? ==> "Unknown " + e.noun + " " + e.id <= t
  {
    match e
    case Unknown(noun, id, didYouMean) => "Unknown " + noun + " " + id + didYouMean
    case Reported(message) => message
  }
}
