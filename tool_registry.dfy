/** The tool registration shim of the Run Commands MCP server: the `register_tool`
    decorator factory and the flush of locally buffered tools into whatever
    registration hook the installed MCP library offers.

    Reflection on the library (`getattr`, `hasattr`, `callable`, `isinstance`, `dir`)
    is a record of booleans and the list of attribute names. */
module ToolRegistry {
  import opened PyDict
  import opened PyText

  /** A tool function: its `__name__` and an identity telling functions apart. */
  datatype ToolFn = ToolFn(name: string, id: nat)

  /** What reflection finds on the `server` object. */
  datatype ServerSurface = ServerSurface(
    toolCallable: bool,           // callable(getattr(server, "tool", None))
    registerToolCallable: bool,   // hasattr(server, "register_tool") and callable(...)
    toolCacheIsDict: bool,        // hasattr(server, "_tool_cache") and isinstance(..., dict)
    attributes: seq<string>)      // dir(server)

  /** What reflection finds on the `mcp` module. */
  datatype McpModule = McpModule(toolCallable: bool, registerToolCallable: bool)

  /** The decorator `register_tool(name)` returns, with the two capabilities it
      looked up when the factory was called. */
  datatype Decorator = Decorator(name: Option<string>, serverTool: bool, moduleTool: bool)

  /** What decorating a function gives back. */
  datatype Decorated =
    | WrappedByServer(fn: ToolFn)   // server.tool()(fn)
    | WrappedByModule(fn: ToolFn)   // mcp.tool()(fn)
    | Unchanged(fn: ToolFn)         // fn itself, buffered locally

  /** A call the shim makes into the MCP library. */
  datatype LibraryCall =
    | ServerToolDecorates(fn: ToolFn)
    | ModuleToolDecorates(fn: ToolFn)
    | ServerRegisterTool(name: string, fn: ToolFn)
    | ModuleRegisterTool(name: string, fn: ToolFn)

  datatype Strategy = ViaServerRegisterTool | ViaToolCache | ViaModuleRegisterTool

  datatype FlushOutcome =
    | NothingToFlush
    | Flushed(strategy: Strategy)
    | RuntimeError(message: string)

  /** `name or fn.__name__`: an absent or empty name falls back to the function's. */
  function ToolName(name: Option<string>, fn: ToolFn): (r: string)
    ensures name.Some? && name.value != "" ==> r == name.value
    ensures name.None? || name.value == "" ==> r == fn.name
  {
    if name.Some? && name.value != "" then name.value else fn.name
  }

  /** The strategy a flush uses, in the fixed priority order, or none. */
  function FlushStrategy(server: ServerSurface, mcp: McpModule): (s: Option<Strategy>)
    ensures s == Some(ViaServerRegisterTool) <==> server.registerToolCallable
    ensures s == Some(ViaToolCache) <==> !server.registerToolCallable && server.toolCacheIsDict
    ensures s == Some(ViaModuleRegisterTool)
        <==> !server.registerToolCallable && !server.toolCacheIsDict && mcp.registerToolCallable
  {
    if server.registerToolCallable then Some(ViaServerRegisterTool)
    else if server.toolCacheIsDict then Some(ViaToolCache)
    else if mcp.registerToolCallable then Some(ViaModuleRegisterTool)
    else None
  }

  /** The attribute names not starting with `_`, in their order. */
  function PublicNames(attrs: seq<string>): (r: seq<string>)
    ensures forall a :: a in r <==> a in attrs && !StartsWith(a, "_")
    ensures multiset(r) <= multiset(attrs)
  {
    if attrs == [] then []
    else
      assert attrs == [attrs[0]] + attrs[1..];
      if StartsWith(attrs[0], "_") then PublicNames(attrs[1..])
      else [attrs[0]] + PublicNames(attrs[1..])
  }

  /** `sorted(a for a in dir(server) if not a.startswith("_"))` */
  function ListedAttributes(attrs: seq<string>): (r: seq<string>)
    ensures IsSorted(r)
    ensures multiset(r) == multiset(PublicNames(attrs))
    ensures forall a :: a in r <==> a in attrs && !StartsWith(a, "_")
  {
    SortSorted(PublicNames(attrs));
    var r := Sort(PublicNames(attrs));
    assert forall a :: a in r <==> a in multiset(r);
    r
  }

  const FailurePrefix: string :=
    "Couldn't auto-register tools: " + "your 'mcp' package lacks " + "server.tool/mcp.tool, "
    + "and fallback registrations " + "failed. Server attributes: "

  /** The message of the `RuntimeError` raised when no strategy applies. */
  function FailureMessage(attrs: seq<string>): (m: string)
    ensures StartsWith(m, FailurePrefix)
    ensures m[|FailurePrefix|..] == Join(", ", ListedAttributes(attrs))
  {
    var m := FailurePrefix + Join(", ", ListedAttributes(attrs));
    assert m[..|FailurePrefix|] == FailurePrefix;
    m
  }

  /** The calls that registering every item of `items` through a hook makes, in order. */
  function RegisterCalls(s: Strategy, items: Dict<string, ToolFn>): (r: seq<LibraryCall>)
    requires s != ViaToolCache
    ensures |r| == |items|
    ensures forall i :: 0 <= i < |items| ==>
      r[i] == if s == ViaServerRegisterTool then ServerRegisterTool(items[i].0, items[i].1)
              else ModuleRegisterTool(items[i].0, items[i].1)
  {
    if items == [] then []
    else
      var c := if s == ViaServerRegisterTool then ServerRegisterTool(items[|items| - 1].0, items[|items| - 1].1)
               else ModuleRegisterTool(items[|items| - 1].0, items[|items| - 1].1);
      RegisterCalls(s, items[..|items| - 1]) + [c]
  }

  /** Flushing through `_tool_cache`: every buffered tool lands in the cache under its
      name, and every other cache entry is untouched. */
  lemma CacheFlushContents(cache: Dict<string, ToolFn>, registry: Dict<string, ToolFn>, k: string)
    requires UniqueKeys(registry)
    ensures k in Keys(registry) ==> Get(PutAll(cache, registry), k) == Get(registry, k)
    ensures k !in Keys(registry) ==> Get(PutAll(cache, registry), k) == Get(cache, k)
  {
    PutAllGet(cache, registry, k);
    LastGetIsGet(registry, k);
  }

  /** The three tools the module defines, in definition order. */
  const RunInContainerTool := ToolFn("run_in_container", 0)
  const CreateFileInContainerTool := ToolFn("create_file_in_container", 1)
  const ListRunningContainersTool := ToolFn("list_running_containers", 2)

  /** Buffering three tools with distinct names, each under its own name, gives the
      registry exactly those items in the order they were buffered. */
  lemma BufferedNames(f0: ToolFn, f1: ToolFn, f2: ToolFn)
    requires f0.name != f1.name && f0.name != f2.name && f1.name != f2.name
    ensures Put(Put(Put([], f0.name, f0), f1.name, f1), f2.name, f2)
         == [(f0.name, f0), (f1.name, f1), (f2.name, f2)]
    ensures Keys(Put(Put(Put([], f0.name, f0), f1.name, f1), f2.name, f2)) == [f0.name, f1.name, f2.name]
  {
    PutThreeNew(f0.name, f0, f1.name, f1, f2.name, f2);
  }

  /** The module's state: the library surface, the local registry `_LOCAL_TOOL_REGISTRY`,
      the server's `_tool_cache` (meaningful when it is a dict) and the log of calls
      into the library. */
  class ToolShim {
    var server: ServerSurface
    var mcp: McpModule
    var registry: Dict<string, ToolFn>
    var toolCache: Dict<string, ToolFn>
    var calls: seq<LibraryCall>

    ghost predicate Valid()
      reads this
    {
      UniqueKeys(registry) && UniqueKeys(toolCache)
    }

    constructor (server: ServerSurface, mcp: McpModule, toolCache: Dict<string, ToolFn>)
      requires UniqueKeys(toolCache)
      ensures Valid()
      ensures this.server == server && this.mcp == mcp && this.toolCache == toolCache
      ensures registry == [] && calls == []
    {
      this.server := server;
      this.mcp := mcp;
      this.toolCache := toolCache;
      registry := [];
      calls := [];
    }

    /** `register_tool(name)`: the decorator, with `server.tool` and `mcp.tool` looked up now. */
    function RegisterTool(name: Option<string>): (d: Decorator)
      reads this
      ensures d.name == name && d.serverTool == server.toolCallable && d.moduleTool == mcp.toolCallable
    {
      Decorator(name, server.toolCallable, mcp.toolCallable)
    }

    /** Applying a decorator to `fn`: the captured `server.tool` first, then the captured
        `mcp.tool`; otherwise `fn` is stored under `name or fn.__name__` and returned as is. */
    method Decorate(d: Decorator, fn: ToolFn) returns (r: Decorated)
      requires Valid()
      modifies this`registry, this`calls
      ensures Valid()
      ensures d.serverTool ==>
        r == WrappedByServer(fn) && registry == old(registry) && calls == old(calls) + [ServerToolDecorates(fn)]
      ensures !d.serverTool && d.moduleTool ==>
        r == WrappedByModule(fn) && registry == old(registry) && calls == old(calls) + [ModuleToolDecorates(fn)]
      ensures !d.serverTool && !d.moduleTool ==>
        r == Unchanged(fn) && registry == Put(old(registry), ToolName(d.name, fn), fn) && calls == old(calls)
    {
      var toolName := ToolName(d.name, fn);
      if d.serverTool {
        calls := calls + [ServerToolDecorates(fn)];
        return WrappedByServer(fn);
      }
      if d.moduleTool {
        calls := calls + [ModuleToolDecorates(fn)];
        return WrappedByModule(fn);
      }
      PutUniqueKeys(registry, toolName, fn);
      registry := Put(registry, toolName, fn);
      r := Unchanged(fn);
    }

    /** `_manual_register_local_tools()`: nothing for an empty registry; otherwise the
        first strategy that applies registers every buffered tool in order (a call that
        raises is skipped), or a `RuntimeError` names the public server attributes.
        The registry itself is left as it is. */
    method FlushLocalTools() returns (out: FlushOutcome)
      requires Valid()
      modifies this`toolCache, this`calls
      ensures Valid()
      ensures old(registry) == [] ==> out == NothingToFlush
      ensures old(registry) != [] && FlushStrategy(server, mcp).Some? ==>
        out == Flushed(FlushStrategy(server, mcp).value)
      ensures old(registry) != [] && FlushStrategy(server, mcp).None? ==>
        out == RuntimeError(FailureMessage(server.attributes))
      ensures out.Flushed? && out.strategy == ViaToolCache ==>
        toolCache == PutAll(old(toolCache), registry) && calls == old(calls)
      ensures out.Flushed? && out.strategy != ViaToolCache ==>
        toolCache == old(toolCache) && calls == old(calls) + RegisterCalls(out.strategy, registry)
      ensures !out.Flushed? ==> toolCache == old(toolCache) && calls == old(calls)
    {
      if registry == [] {
        return NothingToFlush;
      }
      var strategy := FlushStrategy(server, mcp);
      if strategy.None? {
        return RuntimeError(FailureMessage(server.attributes));
      }
      var i := 0;
      while i < |registry|
        invariant 0 <= i <= |registry|
        invariant Valid()
        invariant strategy.value == ViaToolCache ==>
          toolCache == PutAll(old(toolCache), registry[..i]) && calls == old(calls)
        invariant strategy.value != ViaToolCache ==>
          toolCache == old(toolCache) && calls == old(calls) + RegisterCalls(strategy.value, registry[..i])
      {
        var (name, fn) := registry[i];
        assert registry[..i + 1][..i] == registry[..i];
        if strategy.value == ViaToolCache {
          PutUniqueKeys(toolCache, name, fn);
          toolCache := Put(toolCache, name, fn);
        } else if strategy.value == ViaServerRegisterTool {
          calls := calls + [ServerRegisterTool(name, fn)];
        } else {
          calls := calls + [ModuleRegisterTool(name, fn)];
        }
        i := i + 1;
      }
      assert registry[..i] == registry;
      out := Flushed(strategy.value);
    }

    /** Importing the module decorates its three tools, each with `@register_tool()`:
        all three are wrapped by `server.tool`, or else all by `mcp.tool`, or else
        buffered under their own names in definition order. */
    method DecorateModuleTools() returns (decorated: seq<Decorated>)
      requires Valid() && registry == []
      modifies this`registry, this`calls
      ensures Valid()
      ensures server.toolCallable ==>
        registry == []
        && calls == old(calls) + [ServerToolDecorates(RunInContainerTool),
                                  ServerToolDecorates(CreateFileInContainerTool),
                                  ServerToolDecorates(ListRunningContainersTool)]
        && decorated == [WrappedByServer(RunInContainerTool), WrappedByServer(CreateFileInContainerTool),
                         WrappedByServer(ListRunningContainersTool)]
      ensures !server.toolCallable && mcp.toolCallable ==>
        registry == []
        && calls == old(calls) + [ModuleToolDecorates(RunInContainerTool),
                                  ModuleToolDecorates(CreateFileInContainerTool),
                                  ModuleToolDecorates(ListRunningContainersTool)]
        && decorated == [WrappedByModule(RunInContainerTool), WrappedByModule(CreateFileInContainerTool),
                         WrappedByModule(ListRunningContainersTool)]
      ensures !server.toolCallable && !mcp.toolCallable ==>
        registry == [("run_in_container", RunInContainerTool),
                     ("create_file_in_container", CreateFileInContainerTool),
                     ("list_running_containers", ListRunningContainersTool)]
        && calls == old(calls)
        && decorated == [Unchanged(RunInContainerTool), Unchanged(CreateFileInContainerTool),
                         Unchanged(ListRunningContainersTool)]
    {
      var f0, f1, f2 := RunInContainerTool, CreateFileInContainerTool, ListRunningContainersTool;
      var d0 := RegisterTool(None);
      var r0 := Decorate(d0, f0);
      var d1 := RegisterTool(None);
      var r1 := Decorate(d1, f1);
      var d2 := RegisterTool(None);
      var r2 := Decorate(d2, f2);
      if !server.toolCallable && !mcp.toolCallable {
        assert registry == Put(Put(Put([], f0.name, f0), f1.name, f1), f2.name, f2);
        BufferedNames(f0, f1, f2);
      }
      decorated := [r0, r1, r2];
    }
  }
}
