/** `createMcpServer` of src/framework/mcpServerKit.ts: a server object holding its options
    and a registry of tools keyed by name. */
module McpServerKit {
  import opened Wrappers
  import opened Seqs

  /** The part of `capabilities` the server is created with: for each capability, its
      boolean settings. */
  type Capabilities = map<string, map<string, bool>>

  datatype ServerOptions = ServerOptions(name: string, version: string, capabilities: Option<Capabilities>)

  /** A tool definition. Its description and schemas are not part of this model, and of its
      handler only whether it is a function matters. */
  datatype ToolDefinition = ToolDefinition(name: string, hasHandler: bool)

  /** The key order of a JavaScript `Map` after `set(name, …)`: a key already present keeps
      its position, a new key goes at the end. */
  function InsertKey(keys: seq<string>, name: string): (r: seq<string>)
    ensures name in r
    ensures forall k :: k in r <==> k in keys || k == name
    ensures name in keys ==> r == keys
    ensures name !in keys ==> |r| == |keys| + 1 && r[..|keys|] == keys && r[|keys|] == name
    ensures Distinct(keys) ==> Distinct(r)
  {
    if name in keys then keys else keys + [name]
  }

  /** The object `createMcpServer` returns. `tools` is the `Map` and `keys` its iteration
      order. */
  class McpServer {
    const options: ServerOptions
    var tools: map<string, ToolDefinition>
    var keys: seq<string>

    /** The keys are those of the map, each once. */
    ghost predicate Valid()
      reads this
    {
      Distinct(keys) && forall name :: name in tools <==> name in keys
    }

    /** `createMcpServer(options)`: the options exactly as given and no tools. */
    constructor (options: ServerOptions)
      ensures this.options == options
      ensures tools == map[] && keys == []
      ensures Valid()
    {
      this.options := options;
      tools := map[];
      keys := [];
    }

    /** `tools.get(name)`. */
    function Get(name: string): (r: Option<ToolDefinition>)
      reads this
      ensures r.Some? <==> name in tools
      ensures r.Some? ==> r.value == tools[name]
    {
      if name in tools then Some(tools[name]) else None
    }

    /** `registerTool`: the last registration under a name wins; a name already present
        keeps its position and the number of tools, a new name is added at the end. */
    method RegisterTool(tool: ToolDefinition)
      requires Valid()
      modifies this
      ensures Valid()
      ensures Get(tool.name) == Some(tool)
      ensures tools == old(tools)[tool.name := tool]
      ensures keys == InsertKey(old(keys), tool.name)
      ensures |tools| == if tool.name in old(tools) then |old(tools)| else |old(tools)| + 1
    {
      tools := tools[tool.name := tool];
      keys := InsertKey(keys, tool.name);
    }

    /** `start`: a placeholder that resolves at once and changes nothing. */
    method Start()
      ensures unchanged(this)
    {
    }

    /** `listen`: the same placeholder as `start`. */
    method Listen()
      ensures unchanged(this)
    {
    }
  }
}
