/** The command line entry point of src/cli.ts: two flags decide between printing the
    version, printing the help text and starting the server. */
module Cli {
  import opened Wrappers

  datatype CliOptions = CliOptions(showHelp: bool, showVersion: bool)

  predicate IsHelpFlag(arg: string) { arg == "--help" || arg == "-h" }
  predicate IsVersionFlag(arg: string) { arg == "--version" || arg == "-v" }

  /** The options the arguments ask for: a flag is set when it occurs anywhere. */
  ghost function RequestedOptions(args: seq<string>): CliOptions {
    CliOptions(exists i :: 0 <= i < |args| && IsHelpFlag(args[i]),
               exists i :: 0 <= i < |args| && IsVersionFlag(args[i]))
  }

  /** `parseArguments`: one pass over the arguments, setting a flag when its argument is seen. */
  method ParseArguments(args: seq<string>) returns (options: CliOptions)
    ensures options.showHelp <==> exists i :: 0 <= i < |args| && IsHelpFlag(args[i])
    ensures options.showVersion <==> exists i :: 0 <= i < |args| && IsVersionFlag(args[i])
  {
    var showHelp, showVersion := false, false;
    for k := 0 to |args|
      invariant showHelp <==> exists i :: 0 <= i < k && IsHelpFlag(args[i])
      invariant showVersion <==> exists i :: 0 <= i < k && IsVersionFlag(args[i])
    {
      if args[k] == "--help" || args[k] == "-h" {
        showHelp := true;
      }
      if args[k] == "--version" || args[k] == "-v" {
        showVersion := true;
      }
    }
    options := CliOptions(showHelp, showVersion);
  }

  /** Only which arguments occur matters, not their order or how often they occur. */
  lemma OptionsIgnoreOrder(a: seq<string>, b: seq<string>)
    requires forall x :: x in a <==> x in b
    ensures RequestedOptions(a) == RequestedOptions(b)
  {
    if exists i :: 0 <= i < |a| && IsHelpFlag(a[i]) {
      var i :| 0 <= i < |a| && IsHelpFlag(a[i]);
      assert a[i] in b;
    }
    if exists i :: 0 <= i < |b| && IsHelpFlag(b[i]) {
      var i :| 0 <= i < |b| && IsHelpFlag(b[i]);
      assert b[i] in a;
    }
    if exists i :: 0 <= i < |a| && IsVersionFlag(a[i]) {
      var i :| 0 <= i < |a| && IsVersionFlag(a[i]);
      assert a[i] in b;
    }
    if exists i :: 0 <= i < |b| && IsVersionFlag(b[i]) {
      var i :| 0 <= i < |b| && IsVersionFlag(b[i]);
      assert b[i] in a;
    }
  }

  datatype Action = PrintVersion | PrintHelp | StartServer

  /** The decision of `main`: the version flag wins over the help flag, and the server starts
      only when neither is given. */
  function ChooseAction(options: CliOptions): (a: Action)
    ensures a == PrintVersion <==> options.showVersion
    ensures a == PrintHelp <==> options.showHelp && !options.showVersion
    ensures a == StartServer <==> !options.showHelp && !options.showVersion
  {
    if options.showVersion then PrintVersion
    else if options.showHelp then PrintHelp
    else StartServer
  }

  function VersionText(version: string): string {
    "mcp-rca v" + version
  }

  function HelpText(version: string): string {
    "mcp-rca v" + version + "\n\n"
    + "Usage: mcp-rca [options]\n\n"
    + "Options:\n"
    + "  --help, -h     Show this help message\n"
    + "  --version, -v  Print the current version"
  }

  // ---------------------------------------------------------------------------------------
  // Linking against src/server.ts

  /** The names src/cli.ts imports from src/server.ts, in import order. */
  const ServerImports: seq<string> := ["start", "SERVER_VERSION"]

  /** The names src/server.ts exports. */
  const ServerExports: set<string> := {"buildServer", "start"}

  function MissingExport(name: string): string {
    "The requested module './server.js' does not provide an export named '" + name + "'"
  }

  /** Linking `cli.ts` as an ES module against a module exporting `exports`: the first
      imported name without an export is a link error, and then no statement of `cli.ts`
      runs. */
  function LinkServer(imports: seq<string>, exports: set<string>): (r: Result<()>)
    ensures r.Ok? <==> forall i :: 0 <= i < |imports| ==> imports[i] in exports
    ensures r.Err? ==> exists i :: 0 <= i < |imports| && imports[i] !in exports && r.message == MissingExport(imports[i])
  {
    if imports == [] then Ok(())
    else if imports[0] !in exports then Err(MissingExport(imports[0]))
    else LinkServer(imports[1..], exports)
  }

  /** As written, `cli.ts` does not link: `SERVER_VERSION` has no export, so neither the
      version, nor the help text, nor the server is ever reached. */
  lemma CliDoesNotLink()
    ensures LinkServer(ServerImports, ServerExports) == Err(MissingExport("SERVER_VERSION"))
  {
  }

  /** With `SERVER_VERSION` exported, as `RunCli` takes it, linking succeeds. */
  lemma CliLinksWithVersionExport()
    ensures LinkServer(ServerImports, ServerExports + {"SERVER_VERSION"}).Ok?
  {
  }

  /** What `main` leaves behind: the lines written to standard output and the process exit
      code, unset unless starting failed. */
  datatype Outcome = Outcome(stdout: seq<string>, exitCode: Option<int>)

  /** `main` with the command line arguments after the script name, as it runs once
      `cli.ts` links (see `CliDoesNotLink`). `version` is the `SERVER_VERSION` it imports and
      `started` is how the server's `start` settles: a rejection is caught and turns into
      exit code 1. */
  method RunCli(args: seq<string>, version: string, started: Result<()>) returns (outcome: Outcome)
    ensures var options := RequestedOptions(args);
            match ChooseAction(options)
            case PrintVersion => outcome == Outcome([VersionText(version)], None)
            case PrintHelp => outcome == Outcome([HelpText(version)], None)
            case StartServer => outcome == Outcome([], if started.Err? then Some(1) else None)
  {
    var options := ParseArguments(args);
    if options.showVersion {
      return Outcome([VersionText(version)], None);
    }
    if options.showHelp {
      return Outcome([HelpText(version)], None);
    }
    if started.Err? {
      return Outcome([], Some(1));
    }
    outcome := Outcome([], None);
  }
}
