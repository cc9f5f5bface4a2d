# A Dafny model of the PentestAgent core

This project models four pieces of the PentestAgent prototype and proves properties of them.

- **The Run Commands MCP server** (`tools/run_commands_mcp.py`; `PentestAgent/tools/run_commands_mcp.py` is an identical copy). It exposes three tools:
  - `run_in_container` runs `bash -c` in a container through `docker exec`, with a timeout.
  - `create_file_in_container` encodes text and copies it into a container with `docker cp`.
  - `list_running_containers` parses `docker ps`.

  It also carries a registration shim. The `register_tool` decorator prefers `server.tool`, then `mcp.tool`, and otherwise buffers the tool locally. `_manual_register_local_tools` flushes that buffer through the first hook the installed library offers, or raises a `RuntimeError` that lists the server's public attributes.
- **The baseline prompt loader** (`PentestAgent/from_baseline/prompt_loader.py`): the category-to-file table, loading a category's YAML prompts, and rendering a template over a flattened, dotted context.
- **The one-challenge runner** (`new_main.py`): picking a challenge, the server-name and port fallbacks exported to the agent, the `try`/`finally` cleanup of a run, and the exit codes of the command line.
- **The workflow table** (`workflows/workflow_definitions.py`; the copy under `PentestAgent/` is identical): the five automated workflows, lookup by key, and the list of names.

How the model represents things:

- Python values are a `Value` datatype. A Python `dict` is an association list kept in insertion order (`PyDict`). `str` builtins are functions on `seq<char>` (`PyText`). `pathlib` paths are `PurePath`.
- External processes (docker, the agent, the baseline environment) are inputs describing how each call ends.
- What a tool does outside the model is recorded in order as a list of effects: processes run, the temporary file written and removed, a kill.
- Mutable module state is a class: `ToolRegistry.ToolShim` (the local registry, the server's `_tool_cache` and the calls made into the library) and `PromptLoader.Flattener` (the `flat` dict `_flatten` fills).

## Model

| member | source | states |
|---|---|---|
| ToolRegistry.ToolName | tools/run_commands_mcp.py:47 | a non-empty given name is used; an absent or empty one falls back to the function's `__name__` |
| ToolRegistry.ToolShim.RegisterTool | tools/run_commands_mcp.py:36-45 | the decorator captures the name and whether `server.tool` and `mcp.tool` are callable at the time the factory is called |
| ToolRegistry.ToolShim.Decorate | tools/run_commands_mcp.py:46-57 | `server.tool` wins over `mcp.tool`, and both leave the registry alone; with neither, the function is stored under `name or __name__` (overwriting) and returned unchanged; the registry keeps unique keys |
| ToolRegistry.ToolShim.DecorateModuleTools | tools/run_commands_mcp.py:94-99 | when `server.tool` is callable, each of the three tools is wrapped by it, one `server.tool` call per tool is recorded in definition order, and the registry stays empty; otherwise, when `mcp.tool` is callable, the same holds with `mcp.tool`; with neither, the three tools come back unchanged, no call is recorded, and the registry is exactly `run_in_container`, `create_file_in_container`, `list_running_containers` with their functions, in that order |
| ToolRegistry.BufferedNames | tools/run_commands_mcp.py:54 | buffering three tools with distinct names gives a registry of exactly those three `(name, function)` pairs in definition order |
| ToolRegistry.FlushStrategy | tools/run_commands_mcp.py:215-237 | the strategy is `server.register_tool` exactly when that is callable, otherwise `_tool_cache` exactly when it is a dict, otherwise `mcp.register_tool` exactly when that is callable |
| ToolRegistry.ToolShim.FlushLocalTools | tools/run_commands_mcp.py:208-244 | an empty registry does nothing; otherwise the first applicable strategy registers every buffered tool in registry order, either writing them all into the cache (other cache entries kept) or making one register call per tool; with no strategy, the outcome is a `RuntimeError` with the listed attributes and nothing changes |
| ToolRegistry.RegisterCalls | tools/run_commands_mcp.py:217-221 | one register call per registry item, at the same position, with that item's name and function |
| ToolRegistry.CacheFlushContents | tools/run_commands_mcp.py:225-228 | after the cache flush, a buffered name maps to its buffered function and any other key keeps its old cache entry |
| ToolRegistry.PublicNames | tools/run_commands_mcp.py:240 | an attribute is kept exactly when it does not start with `_`; nothing is invented or duplicated |
| ToolRegistry.ListedAttributes | tools/run_commands_mcp.py:240 | the listing is sorted, a permutation of the public names, and holds exactly the attributes not starting with `_` |
| ToolRegistry.FailureMessage | tools/run_commands_mcp.py:240-244 | the message is the fixed text followed by the sorted public attributes joined by `", "` |
| ContainerTools.ReplaceCrlf | tools/run_commands_mcp.py:63 | replacing CRLF by LF never makes a text longer |
| ContainerTools.ReplaceCrlfUnchanged | tools/run_commands_mcp.py:63 | the replacement changes a text exactly when the text contains a CRLF |
| ContainerTools.ReplaceCrlfShortens | tools/run_commands_mcp.py:63 | a text holding a CRLF gets strictly shorter |
| ContainerTools.ReplaceCrlfKeeps | tools/run_commands_mcp.py:63 | a CRLF-free text is returned as it is |
| ContainerTools.ReplaceCrlfAfter | tools/run_commands_mcp.py:63 | scanning is left to right: the first CRLF after a CRLF-free prefix becomes LF and the rest is processed in the same way |
| ContainerTools.ReplaceCrlfJoin | tools/run_commands_mcp.py:63 | CRLF-free lines joined with CRLF come out joined with LF |
| ContainerTools.CleanTextKeepsNewCrlf | tools/run_commands_mcp.py:63 | the result can still contain a CRLF: `"\r\r\n"` becomes `"\r\n"` |
| ContainerTools.CleanText | tools/run_commands_mcp.py:60-63 | `None` stays `None`, text stays text and is never longer |
| ContainerTools.ExecFieldStdout | tools/run_commands_mcp.py:74-79 | the result dict's `stdout` key holds the cleaned standard output |
| ContainerTools.ExecFieldStderr | tools/run_commands_mcp.py:74-79 | the `stderr` key holds the cleaned error output |
| ContainerTools.ExecFieldReturncode | tools/run_commands_mcp.py:74-79 | the `returncode` key holds the given return code |
| ContainerTools.ExecFieldTimedOut | tools/run_commands_mcp.py:74-79 | the `timed_out` key holds the timeout flag |
| ContainerTools.ExecFieldsNoError | tools/run_commands_mcp.py:74-79 | the exec result has no `error` key |
| ContainerTools.ExecResult | tools/run_commands_mcp.py:73-91 | for a started process: `returncode` is null exactly when `timed_out` is true; an exited process reports its code; both outputs are CRLF-cleaned; there is no `error` key |
| ContainerTools.DockerExec | tools/run_commands_mcp.py:66-91 | the first effect runs `docker exec <id> bash -c <command>` with the timeout; a kill happens exactly on timeout; the call raises exactly when the process could not be spawned, and otherwise returns the exec result |
| ContainerTools.RunInContainer | tools/run_commands_mcp.py:94-106 | an empty or missing container id is refused first, then a missing command, each with its error message and no effect; otherwise the result of the docker exec |
| ContainerTools.RunInContainerReturncode | tools/run_commands_mcp.py:94-106 | every returned result is either an error made with no effects, or has a null `returncode` exactly when it timed out |
| ContainerTools.ExpandUserText | tools/run_commands_mcp.py:109-112 | a leading `~` is replaced by the home text once; any other path is kept |
| ContainerTools.ExpandUserExamples | tools/run_commands_mcp.py:110-111 | only the first `~` is replaced, `~user` is not expanded to another user's home, and a `~` later in the path is kept |
| ContainerTools.ExpandUserPath | tools/run_commands_mcp.py:109-112 | a path not starting with `~` is parsed as it is; for one starting with `~`, the result is `Path(str(home) + rest)` with only that first `~` replaced, and it is absolute whenever the home is |
| ContainerTools.CopyBytes | tools/run_commands_mcp.py:115-155 | the first effect is `mkdir -p` of the parent directory; if mkdir cannot start, the copy stops with an error; otherwise the bytes go to a temporary file, which `docker cp` copies and which is then removed; a nonzero cp exit gives `docker cp failed` with the cp output; success gives `success` and the path; a returned result has `success` exactly when it has no `error` |
| ContainerTools.MkdirExitIgnored | tools/run_commands_mcp.py:117-128 | the exit code of `mkdir -p` makes no difference (`check=False`) |
| ContainerTools.CopyRemovesTemp | tools/run_commands_mcp.py:151-155 | once the temporary file is written, removing it is the last effect, whether cp failed, raised or succeeded |
| ContainerTools.Destination | tools/run_commands_mcp.py:182-184 | an absolute path is used as it is; a relative one is appended to the container home |
| ContainerTools.ParseDefaultHome | tools/run_commands_mcp.py:164 | the default home is the absolute path `home/ctfplayer` |
| ContainerTools.RelativeUnderDefaultHome | tools/run_commands_mcp.py:182-184 | with the default home, a relative path lands under `/home/ctfplayer` |
| ContainerTools.CreateFileInContainer | tools/run_commands_mcp.py:158-187 | the id, the path and then `None` contents are refused in that order, with no effect; a failed encoding is reported with `invalid contents encoding`; otherwise the encoded bytes are copied to the destination |
| ContainerTools.EmptyContentsAccepted | tools/run_commands_mcp.py:170 | empty contents are written like any other; only `None` is refused |
| ContainerTools.LineEntryShape | tools/run_commands_mcp.py:202-204 | a line without a tab gives no entry; a line with one gives an id free of tabs and the rest of the line |
| ContainerTools.LineEntryAt | tools/run_commands_mcp.py:202 | a line is split at its first tab only |
| ContainerTools.LineEntry | tools/run_commands_mcp.py:202-204 | a line gives at most one entry, and gives one exactly when it holds a tab |
| ContainerTools.LineEntriesBound | tools/run_commands_mcp.py:200-204 | the lines together never give more entries than there are lines |
| ContainerTools.Entries | tools/run_commands_mcp.py:200-204 | the parsed entries are never more than the lines |
| ContainerTools.EntriesAppend | tools/run_commands_mcp.py:201 | the entries of consecutive lines are consecutive |
| ContainerTools.EntriesAllTabbed | tools/run_commands_mcp.py:203 | every line yields an entry exactly when every line holds a tab |
| ContainerTools.EntriesOfPsOutput | tools/run_commands_mcp.py:193-204 | round trip: parsing what `docker ps --format '{{.ID}}\t{{.Names}}'` prints gives back the containers, when ids have no tab and neither part has a line break |
| ContainerTools.EntriesOfLines | tools/run_commands_mcp.py:202-204 | parsing `id\tnames` lines gives back the `(id, names)` pairs |
| ContainerTools.EntryValuesAt | tools/run_commands_mcp.py:204 | the list holds one `{id, names}` dict per entry, in order |
| ContainerTools.EntryValues | tools/run_commands_mcp.py:200-204 | one list element per entry |
| ContainerTools.ParseEntries | tools/run_commands_mcp.py:200-204 | the loop builds exactly one `{id, names}` dict per line that holds a tab, in line order |
| ContainerTools.ListRunningContainers | tools/run_commands_mcp.py:190-205 | exactly one `docker ps` runs; a spawn failure raises; a nonzero exit gives the stripped error output and the code; success gives the parsed list of the output's lines |
| PurePath.Parse | tools/run_commands_mcp.py:182 | `Path(s)` is absolute exactly when `s` starts with `/`, and its components are non-empty, not `.`, and free of `/` |
| PurePath.ParseText | tools/run_commands_mcp.py:124 | `str` of a path parses back to the same path |
| PurePath.Div | tools/run_commands_mcp.py:184 | `a / b` is `b` when `b` is absolute, and otherwise `a` with `b`'s components appended |
| PurePath.Parent | tools/run_commands_mcp.py:124 | the parent drops exactly the last component and keeps absoluteness; `/` and `.` are their own parents |
| PromptLoader.CategoryFileIgnoresCase | PentestAgent/from_baseline/prompt_loader.py:38 | a category and its lower case find the same file |
| PromptLoader.CategoryFile | PentestAgent/from_baseline/prompt_loader.py:38 | the lookup misses exactly when the lower-cased category is not a key of the table |
| PromptLoader.CategoryFileKnown | PentestAgent/from_baseline/prompt_loader.py:10-17 | a category has a file exactly when its lower case is one of the six keys, and that file name is never empty |
| PromptLoader.KnownCategory | PentestAgent/from_baseline/prompt_loader.py:10-17 | each key of the table finds its own file |
| PromptLoader.CategoryKeyLower | PentestAgent/from_baseline/prompt_loader.py:10-17 | the keys of the table are lower case, so the lowered lookup can reach every key |
| PromptLoader.CategoryFileOfLowered | PentestAgent/from_baseline/prompt_loader.py:38 | for a lower-case category, the lookup is a plain table lookup |
| PromptLoader.RevAliases | PentestAgent/from_baseline/prompt_loader.py:15-16 | `rev` and `reversing` share `rev_prompt.yaml` |
| PromptLoader.UpperCaseCategory | PentestAgent/from_baseline/prompt_loader.py:38 | `Web` finds `web_prompt.yaml` |
| PromptLoader.LoadCategoryPrompts | PentestAgent/from_baseline/prompt_loader.py:25-52 | an empty category, a missing YAML module and an unknown category each give `None`; any result comes from an existing file of the category |
| PromptLoader.LoadOfExistingFile | PentestAgent/from_baseline/prompt_loader.py:46-52 | for an existing file of a known category, a read or parse error gives `None`, and otherwise the result is the string entries of the parsed document |
| PromptLoader.PromptsOf | PentestAgent/from_baseline/prompt_loader.py:48-50 | loading fails exactly when the document is truthy and not a mapping (`.items()` raises); a loaded mapping has each key once |
| PromptLoader.StringEntries | PentestAgent/from_baseline/prompt_loader.py:50 | the comprehension never yields more entries than the document has |
| PromptLoader.StringEntriesKeys | PentestAgent/from_baseline/prompt_loader.py:50 | a key is loaded exactly when it is the `str()` of a document key whose value is a string |
| PromptLoader.LoadedKeys | PentestAgent/from_baseline/prompt_loader.py:48-50 | a non-empty mapping always loads, and holds exactly the keys whose values are strings |
| PromptLoader.StringEntriesLast | PentestAgent/from_baseline/prompt_loader.py:50 | with string keys, the last entry under a key is the document's own value when that value is a string |
| PromptLoader.LoadedPromptIsDocumentString | PentestAgent/from_baseline/prompt_loader.py:48-50 | for a mapping with string keys, each loaded prompt is the document's string under that key, and keys with non-string values are absent |
| PromptLoader.StringEntriesLastAny | PentestAgent/from_baseline/prompt_loader.py:50 | for keys of any type, the entry under `k` is the value of the last string-valued item whose key's `str()` is `k`, and there is one exactly when such an item exists |
| PromptLoader.LoadedPromptIsLastString | PentestAgent/from_baseline/prompt_loader.py:48-50 | for any mapping, the loaded prompt under `k` is the value of the last string-valued entry whose key's `str()` is `k` (`1:` and `"1":` collide), and there is none exactly when no such entry exists |
| PromptLoader.CollisionEntries | PentestAgent/from_baseline/prompt_loader.py:50 | the comprehension passes `1` through `str()`, so `1` and `"1"` both give `"1"` |
| PromptLoader.LoadedKeyCollision | PentestAgent/from_baseline/prompt_loader.py:50 | `{1: "a", "x": "b", "1": "c"}` loads as `{"1": "c", "x": "b"}`: the later value wins and keeps the first key's place |
| PromptLoader.PromptsOfExamples | PentestAgent/from_baseline/prompt_loader.py:48-52 | a null or empty document loads as no prompts; a list document fails; non-string values are dropped |
| PromptLoader.Flattener.constructor | PentestAgent/from_baseline/prompt_loader.py:64 | `flat` starts empty |
| PromptLoader.Flattener.Flatten | PentestAgent/from_baseline/prompt_loader.py:66-72 | `flat` afterwards is the old `flat` with the recursive walk's stores applied in order |
| PromptLoader.ItemsWritesStep | PentestAgent/from_baseline/prompt_loader.py:68-70 | each dict item's stores follow those of the items before it |
| PromptLoader.FlatWritesLeaves | PentestAgent/from_baseline/prompt_loader.py:67-72 | every value stored is a leaf: dicts are walked and never stored |
| PromptLoader.FlatWritesUnderPrefix | PentestAgent/from_baseline/prompt_loader.py:69 | under a non-empty prefix, every stored key is the prefix itself or starts with `prefix.` |
| PromptLoader.FlatTopLevelLeaves | PentestAgent/from_baseline/prompt_loader.py:69 | a flat context stores each leaf under `str(key)`, in order |
| PromptLoader.FlatWritesExamples | PentestAgent/from_baseline/prompt_loader.py:66-74 | a nested dict becomes dotted keys; an empty nested dict stores nothing; a non-dict context is stored under `""` |
| PromptLoader.FlatWritesAreLeafPaths | PentestAgent/from_baseline/prompt_loader.py:66-72 | for any context and prefix, the stores are exactly the leaves of the context in walk order, each under the key built from the prefix by one `f"{prefix}.{k}" if prefix else str(k)` step per key on its path |
| PromptLoader.ItemsWritesAreLeafPaths | PentestAgent/from_baseline/prompt_loader.py:68-70 | the stores made for a dict's first n items are the leaves under those items, keyed in the same way |
| PromptLoader.DottedKeyExamples | PentestAgent/from_baseline/prompt_loader.py:69 | `challenge`, `name` gives `challenge.name`; an empty key leaves the prefix empty, so the next key gets no dot; an empty key in the middle gives `a..b` |
| PromptLoader.StrippedItems | PentestAgent/from_baseline/prompt_loader.py:77 | one item per flat item, with leading dots stripped from its key and the value kept |
| PromptLoader.StripDots | PentestAgent/from_baseline/prompt_loader.py:77 | the rebuilt mapping has each key once |
| PromptLoader.StripDotsNoLeadingDot | PentestAgent/from_baseline/prompt_loader.py:77 | no rebuilt key starts with a dot |
| PromptLoader.StripDotsGet | PentestAgent/from_baseline/prompt_loader.py:77 | each rebuilt key holds the value of the last flat item that strips to it, and a key no item strips to is absent |
| PromptLoader.StripDotsCollision | PentestAgent/from_baseline/prompt_loader.py:77 | when `.a` comes before `a`, `a`'s value wins |
| PromptLoader.StripDotsCollisionReversed | PentestAgent/from_baseline/prompt_loader.py:77 | when `a` comes before `.a`, `.a`'s value wins |
| PromptLoader.FlatContext | PentestAgent/from_baseline/prompt_loader.py:64-77 | the keyword arguments built from a context have each key once |
| PromptLoader.RenderTemplate | PentestAgent/from_baseline/prompt_loader.py:55-83 | an empty template renders as `""`; a failed format returns the template unchanged; otherwise the result is the format over the dot-stripped flattened context |
| Orchestrator.PickChallenge | new_main.py:136-147 | a given key is looked up, and an absent one raises `KeyError`; with no key, an empty dataset raises `StopIteration` |
| Orchestrator.PickIsEntry | new_main.py:136-147 | every pick is an entry of the dataset, and without a key it is the first entry in insertion order |
| Orchestrator.FirstTruthyIsFirst | new_main.py:66-67 | an `or` chain gives its first truthy candidate, or the fallback when all are falsy |
| Orchestrator.FallbacksAreFirstTruthy | new_main.py:66-67 | the server name is the first truthy of `server_name`, `box`, `host`, else `challenge`; the port is `str` of the first truthy of `port`, `internal_port`, else 80 |
| Orchestrator.ServerName | new_main.py:66 | the server name is always truthy |
| Orchestrator.PortValue | new_main.py:67 | the value given to `str()` for the port is always truthy |
| Orchestrator.Port | new_main.py:67 | the exported port is never empty, and is left unspelled exactly when the port value is a list or a dict |
| Orchestrator.PathStep | new_main.py:62 | `meta['path']` passes exactly when it is present and a string; otherwise it raises `KeyError` or `TypeError` |
| Orchestrator.ExportStep | new_main.py:69-71 | the exports pass exactly when the server name is a string without NUL and the port text has no NUL; a non-string server name, and only that, raises `TypeError`; every other failure is `ValueError` |
| Orchestrator.EmbeddedNulServerName | new_main.py:66-71 | the server name `"a\0b"` makes the export raise `ValueError`, and the run ends with it |
| Orchestrator.ServerNameTruthy | new_main.py:66 | the server name is always truthy and is one of the three fields or `challenge` |
| Orchestrator.ServerNameExamples | new_main.py:66 | an empty `server_name` falls through to `box`; `server_name` beats `host`; with no fields the name is `challenge` |
| Orchestrator.PortExamples | new_main.py:67 | a port of 0 falls through to `internal_port`; with neither, the port is `"80"` |
| Orchestrator.FirstFailure | new_main.py:60-105 | a run ends normally exactly when every step does, and otherwise with one of its steps' exceptions |
| Orchestrator.FirstFailureAt | new_main.py:60-105 | a run ends with the exception of the first step that raised |
| Orchestrator.BodySteps | new_main.py:60-105 | when compose came up, the steps are compose, the exports and the agent; with no compose file, they are the path, the exports, building the challenge, constructing and setting up the environment, and the agent |
| Orchestrator.RunBody | new_main.py:57-105 | the `try` block ends with the first failing step; `started_compose` is set exactly when the compose file exists and came up; `env_obj` is set exactly when construction was reached and succeeded |
| Orchestrator.RunAgentWithEnv | new_main.py:52-133 | teardown runs exactly when `env_obj` was set, compose down exactly when compose was started, and never both; the run ends with the body's outcome unless a cleanup step raised `KeyboardInterrupt` |
| Orchestrator.RunOutcome | new_main.py:119-133 | a run ends with the first failing step of its body (`Ok` when every step passed) whenever the cleanup that runs does not raise `KeyboardInterrupt`; an outcome that differs from the body's is a `KeyboardInterrupt` raised by the cleanup that actually ran, teardown when `env_obj` was set or compose down when compose was started |
| Orchestrator.CleanupErrorsSwallowed | new_main.py:123-133 | an `Exception` in either cleanup step never changes how the run ends |
| Orchestrator.ComposeRunCleansUpWithComposeDown | new_main.py:62-73 | when compose came up, the baseline steps are skipped and only compose down runs |
| Orchestrator.BaselineNameError | new_main.py:92 | as written, the baseline branch always ends in `NameError`, no environment is torn down, and setup and the agent are never reached |
| Orchestrator.BaselineTeardownAfterSetupFailure | new_main.py:92-94 | with `CTFEnvironment` imported, an environment whose `setup()` raised is still torn down, and the run ends with the setup error |
| Orchestrator.Cli | new_main.py:150-177 | exit 2 exactly when the dataset file is missing; exit 3 exactly when the given key is absent; exit 0 exactly when the run ends normally or is interrupted; an interrupt while loading kills the process; every exit status is 0, 1, 2 or 3 |
| Workflows.ListWorkflowNames | workflows/workflow_definitions.py:89-92 | one `(key, name)` pair per workflow, at the same position as in the table |
| Workflows.AvailableWorkflows | workflows/workflow_definitions.py:2-82 | the table's keys are the five workflow keys in order |
| Workflows.GetWorkflowByKey | workflows/workflow_definitions.py:84-87 | a lookup succeeds exactly for the five keys, and gives the table's own workflow for that key |
| Workflows.TableKeys | workflows/workflow_definitions.py:8-81 | the table's keys are the five workflow keys in order, each exactly once |
| Workflows.LookupKnown | workflows/workflow_definitions.py:84-87 | each key finds its own workflow |
| Workflows.LookupByKey | workflows/workflow_definitions.py:84-87 | lookup succeeds exactly for the five keys, and then gives that key's workflow |
| Workflows.NamesInTableOrder | workflows/workflow_definitions.py:89-92 | the listing is the five keys with their workflow names in table order |
| Workflows.ListedKeysLookUp | workflows/workflow_definitions.py:84-92 | every listed key looks up a workflow, and that workflow's name is the one listed with the key |
| Workflows.WebApplicationShape | workflows/workflow_definitions.py:9-20 | 6 steps, with `{target}` only in the first |
| Workflows.FullPenetrationTestShape | workflows/workflow_definitions.py:22-34 | 7 steps, with `{target}` only in the first |
| Workflows.ReverseEngineeringShape | workflows/workflow_definitions.py:36-49 | 8 steps, with `{target}` only in the first |
| Workflows.ForensicsShape | workflows/workflow_definitions.py:51-64 | 8 steps, with `{target}` only in the first |
| Workflows.CryptographyShape | workflows/workflow_definitions.py:66-79 | 8 steps, with `{target}` only in the first |
| Workflows.FullPenetrationTestPhases | workflows/workflow_definitions.py:25-33 | step i starts with `Phase i: ` |
| Workflows.ReverseEngineeringPhases | workflows/workflow_definitions.py:39-48 | step i starts with `Phase i: ` |
| Workflows.ForensicsPhases | workflows/workflow_definitions.py:54-63 | step i starts with `Phase i: ` |
| Workflows.CryptographyPhases | workflows/workflow_definitions.py:69-78 | step i starts with `Phase i: ` |
| Workflows.WebApplicationUnnumbered | workflows/workflow_definitions.py:12-19 | the web workflow's steps are not numbered by phase |
| Workflows.TableShape | workflows/workflow_definitions.py:8-81 | across the table, `{target}` appears only in each first step, every workflow except the web one is numbered by phase, and the step counts are 6, 7, 8, 8, 8 |

## Left out

- `main` of the MCP server (`tools/run_commands_mcp.py:247-275`): the stdio transport and the initialization options are library I/O.
- `json.dumps`: a tool's result is the `Value` before serialization, so key order and escaping are not modelled.
- Byte decoding in `_clean_text` (`utf-8` with `backslashreplace`): process output is taken as already-decoded text.
- The `unicode_escape` / `latin-1` round trip of `create_file_in_container`: the encoding is a parameter that returns bytes or an error message.
- `async`/`await`, `asyncio.sleep` and `time.sleep`: the waits only delay. They are folded into the step that precedes them.
- Printing and `traceback.print_exc`: these are output only.
- `os.environ`: the two assignments are one step that raises `TypeError` for a non-string server name and `ValueError` for an embedded NUL. The environment itself, other OS failures and `UnicodeEncodeError` for text the file system encoding cannot hold are not modelled.
- Orchestrator.Port: `None` stands for `str()` of a list or a dict. Python gives its `repr` here; the model does not spell that text out, and it is never empty.
- Floating-point values: `Value` has no float case, so a YAML or JSON float (a port of `0.0`, say) is not representable; only `run_in_container`'s timeout is a number with a fraction, as a `real`.
- ContainerTools.RunInContainer: the default `timeout=10.0` (`tools/run_commands_mcp.py:98`) is not modelled; the timeout is always passed.
- ContainerTools.CopyBytes: a failing write of the temporary file (`tools/run_commands_mcp.py:132-135`) raises out of the tool in Python; in the model that write always succeeds.
- `load_dataset`, the imports of `CTFChallenge` and `PentestAgent`, the baseline environment and the agent: each is an input saying how its step ends.
- The dataset is taken to be a JSON object.
- `_prompts_dir`: the prompts directory is a parameter, as are `os.path.exists` and the YAML reader.
- `str.format`: a parameter that returns the rendered text or fails. Python's handling of `{a.b}` as attribute access is not modelled.
- PyText.Lower: only ASCII letters are lowered. The only non-ASCII character whose lower case is an ASCII letter is the Kelvin sign (to `k`), and no key of the category table contains `k`, so the lookup result is the same.
- PurePath.Parse: a path starting with exactly two slashes keeps `//` as its root in Python. The model treats it like a single slash.
- ContainerTools.CleanText: the contract states only None-preservation and the length bound. The exact replacement is stated by the ReplaceCrlf lemmas.
- The dicts returned by `get_available_workflows` are new on every call and may be mutated by the caller. Model values are immutable, so that aliasing is not captured.

## Findings

| source | as written | input that shows it | evidently intended | confidence | as-written member | corrected member |
|---|---|---|---|---|---|---|
| new_main.py:92 | `CTFEnvironment` is used but never imported, so the baseline branch raises `NameError` before `env_obj` is assigned; the challenge container is never set up and nothing is torn down | any challenge without `docker-compose.yaml` whose `meta['path']` and server name are strings | import `CTFEnvironment` with `CTFChallenge`, so that the environment is set up, and is torn down in the `finally` block even if `setup()` raised | not executed | Orchestrator.BaselineNameError | Orchestrator.BaselineTeardownAfterSetupFailure |
