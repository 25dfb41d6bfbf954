/** src/server.ts: builds the server with the fixed tool registry and starts it through
    whichever interface the server object exposes. */
module Server {
  import opened Wrappers
  import opened Seqs
  import opened McpServerKit

  /** The members `registerTool` and `start` look for on a server object, each present
      when it is a function. */
  datatype ServerInterface = ServerInterface(
    hasRegisterTool: bool, hasTool: bool, hasAddTool: bool, hasStart: bool, hasListen: bool)

  /** How `registerTool` hands a tool to the server. */
  datatype RegistrationCall = CallRegisterTool | CallTool | CallAddTool(name: string)

  /** The interface choice of `registerTool`, before the call itself. */
  function RegistrationRoute(server: ServerInterface, tool: ToolDefinition): (r: Result<RegistrationCall>)
    ensures r == Ok(CallRegisterTool) <==> server.hasRegisterTool
    ensures r == Ok(CallTool) <==> !server.hasRegisterTool && server.hasTool
    ensures (r.Ok? && r.value.CallAddTool?)
            <==> !server.hasRegisterTool && !server.hasTool && server.hasAddTool && tool.name != "" && tool.hasHandler
    ensures r.Ok? && r.value.CallAddTool? ==> r.value.name == tool.name
    ensures r.Err? ==> r.message == "Unknown MCP server interface for tool " + tool.name
  {
    if server.hasRegisterTool then Ok(CallRegisterTool)
    else if server.hasTool then Ok(CallTool)
    else if server.hasAddTool && tool.name != "" && tool.hasHandler then Ok(CallAddTool(tool.name))
    else Err("Unknown MCP server interface for tool " + tool.name)
  }

  /** Which lifecycle hook the exported `start` calls. */
  datatype StartCall = CallStart | CallListen

  function StartRoute(server: ServerInterface): (r: Result<StartCall>)
    ensures r == Ok(CallStart) <==> server.hasStart
    ensures r == Ok(CallListen) <==> !server.hasStart && server.hasListen
    ensures r.Err? <==> !server.hasStart && !server.hasListen
    ensures r.Err? ==> r.message == "MCP server implementation does not expose a start method."
  {
    if server.hasStart then Ok(CallStart)
    else if server.hasListen then Ok(CallListen)
    else Err("MCP server implementation does not expose a start method.")
  }

  /** The object `createMcpServer` returns has `registerTool`, `start` and `listen`. */
  function KitInterface(): ServerInterface {
    ServerInterface(hasRegisterTool := true, hasTool := false, hasAddTool := false, hasStart := true, hasListen := true)
  }

  /** The server built here takes every tool through its own `registerTool` and is started
      through its `start`. */
  lemma KitRoutes(tool: ToolDefinition)
    ensures RegistrationRoute(KitInterface(), tool) == Ok(CallRegisterTool)
    ensures StartRoute(KitInterface()) == Ok(CallStart)
  {
  }

  /** `TOOL_REGISTRY`, in its order. */
  function ToolRegistry(): (tools: seq<ToolDefinition>)
    ensures |tools| == 4
    ensures forall i :: 0 <= i < |tools| ==> tools[i].hasHandler
  {
    [ ToolDefinition("hypothesis/propose", true),
      ToolDefinition("test/plan", true),
      ToolDefinition("test/prioritize", true),
      ToolDefinition("conclusion/finalize", true) ]
  }

  function NameOf(t: ToolDefinition): string { t.name }

  /** The names of the registry, which are pairwise different. */
  lemma RegistryNames()
    ensures MapSeq(ToolRegistry(), NameOf)
            == ["hypothesis/propose", "test/plan", "test/prioritize", "conclusion/finalize"]
    ensures Distinct(MapSeq(ToolRegistry(), NameOf))
  {
    var names := MapSeq(ToolRegistry(), NameOf);
    assert names == ["hypothesis/propose", "test/plan", "test/prioritize", "conclusion/finalize"];
  }

  function ServerCapabilities(): Capabilities {
    map["tools" := map["listChanged" := true],
        "resources" := map["subscribe" := true, "listChanged" := true]]
  }

  function BuildOptions(): ServerOptions {
    ServerOptions("mcp-rca", "0.1.0", Some(ServerCapabilities()))
  }

  /** `buildServer`: a new server named "mcp-rca", version "0.1.0", holding the registry's
      tools, keyed in registry order. */
  method BuildServer() returns (server: McpServer)
    ensures fresh(server)
    ensures server.Valid()
    ensures server.options == BuildOptions()
    ensures server.keys == ["hypothesis/propose", "test/plan", "test/prioritize", "conclusion/finalize"]
    ensures forall i :: 0 <= i < |ToolRegistry()| ==> server.Get(ToolRegistry()[i].name) == Some(ToolRegistry()[i])
  {
    server := new McpServer(BuildOptions());
    var registry := ToolRegistry();
    var names := MapSeq(registry, NameOf);
    RegistryNames();
    for i := 0 to |registry|
      invariant server.Valid()
      invariant server.options == BuildOptions()
      invariant server.keys == names[..i]
      invariant forall j :: 0 <= j < i ==> server.Get(names[j]) == Some(registry[j])
    {
      assert names[i] !in names[..i];
      assert names[..i + 1] == names[..i] + [names[i]];
      KitRoutes(registry[i]);
      match RegistrationRoute(KitInterface(), registry[i])
      case Ok(CallRegisterTool) =>
        server.RegisterTool(registry[i]);
      case _ =>
        assert false;
    }
    assert names[..|registry|] == names;
  }

  /** The exported `start`: builds the server and calls the hook `StartRoute` picks, which for
      the server built here is the placeholder `start`. */
  method Start() returns (r: Result<()>)
    ensures r == Ok(())
  {
    var server := BuildServer();
    KitRoutes(ToolRegistry()[0]);
    match StartRoute(KitInterface())
    case Ok(CallStart) =>
      server.Start();
      r := Ok(());
    case _ =>
      assert false;
  }
}
