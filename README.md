# talos-mcp-server: result cache, error classifier and tool protocol in Dafny

This project models the core of talos-mcp-server, an MCP server that exposes
`talosctl` commands as tools. It covers four parts of the server.

- **The result cache (`ToolCache`).** A table from the key
  `"<tool>:<sorted arguments>"` to a result and the instant it was stored.
  - `get` reads it under a time-to-live and deletes an expired entry lazily.
  - `set` overwrites an entry.
  - `invalidate` removes all entries, or those of one tool.
  - `get_stats` counts entries per tool.
  - The `cached_tool` and `invalidate_on_mutation` decorators put the cache in front of a run function.
- **The error classifier.**
  - `ErrorCode` is a banded enumeration.
  - The command error infers its code from an explicit code, then from the exit code, then from the first of fifteen substring patterns found in the lower-cased stderr.
  - The user message is a template table plus the stderr.
  - `to_dict` renders an error as a dictionary.
- **The tool protocol.**
  - `execute_talosctl` formats the outcome of a talosctl call.
  - `ensure_nodes` fills in default nodes.
  - `CachedTool.run` does get, then run on a miss, then set unless the result is an error.
  - `MutatingTool.run` runs, then empties the cache.
- **The cluster tools.** The argument lists that reboot, shutdown, reset,
  upgrade, image, bootstrap and cluster-show hand to talosctl, the image tool's
  refusals, and the base class each tool uses.

Modules:

- `Wrappers` (wrappers.dfy): `Option`.
- `Text` (text.dfy): the Python string operations the core uses.
- `CacheKey` (cache_key.dfy): `_make_key`.
- `Cache` (cache.dfy): the `ToolCache` class and the two decorators.
- `Exceptions` (exceptions.dfy): error codes and error values.
- `Base` (base.dfy): `TalosTool`, `CachedTool` and `MutatingTool`.
- `Cluster` (cluster.dfy): the cluster tools.

How the model stands in for the runtime:

- **Time.** The clock is an integer number of milliseconds, passed in as `now`. TTLs are milliseconds too, so the default of 30 seconds is `30_000`. A cached run reads the clock twice, once for the probe and once for the store, and gets two instants, `now` and `done`.
- **Arguments.** A tool's argument dictionary is a sequence of (name, value) string pairs in insertion order. The names are distinct, as the keys of a dictionary are.
- **The wrapped run function.** What the wrapped run function (`_run_impl`, or a decorated `run`) would return is an input, `produced`. The output `invoked` says whether the model calls it.
- **The talosctl call.** It is an input too, `ExecOutcome`: it completed with stdout and stderr, it raised a `TalosError`, or it raised some other exception.

The cache is a class whose methods change its `entries` map. Each method's
postcondition ties the new map to a function of the old one (`Lookup`,
`Store`, or the set of removed keys). The lemmas beside them prove the
properties the cache promises:

- a set is followed by a hit;
- expiry is strict;
- a store touches only its key;
- invalidation removes exactly one tool's keys;
- keys do not depend on insertion order.

Keys are injective: equal keys mean the same tool and the same set of pairs
(`KeyCollision`).

`get_stats` is a loop. It shows that the per-tool counts match the keys and
sum to the total.

The argument-list builders are methods that grow a list step by step. Each
one's postcondition pins the list to a reference function. For every list but
bootstrap's, a reader is proved to recover the arguments that built it; for
image and cluster show it recovers them normalised (an unknown image
sub-command reads back as "list", options the sub-command does not use are
dropped, and empty cluster-show nodes read back as None). The bootstrap list
is tied to `ensure_nodes` instead.

## Model

| member | source | states |
|---|---|---|
| Text.Contains | src/talos_mcp/core/exceptions.py:175-177 | `p in s` holds exactly when `p` occurs in `s` at some index |
| Text.Lower | src/talos_mcp/core/exceptions.py:156 | the ASCII lower-casing that stands in for `lower()` keeps the length and lower-cases every character |
| Text.Split | src/talos_mcp/core/cache.py:134 | `split` always yields at least one field |
| Text.SplitJoin | src/talos_mcp/tools/base.py:88-89 | splitting the comma join of comma-free parts gives the parts back |
| CacheKey.SortArgs | src/talos_mcp/core/cache.py:46 | `sorted(arguments.items())` is a permutation of the items |
| CacheKey.SortArgsStrictlySorted | src/talos_mcp/core/cache.py:46 | the sorted items of a dictionary are strictly ordered by name |
| CacheKey.StrictlySortedUnique | src/talos_mcp/core/cache.py:46 | two strictly sorted lists with the same elements are equal, so sorting forgets insertion order |
| CacheKey.MakeKey | src/talos_mcp/core/cache.py:35-47 | every key starts with the tool name and a colon |
| CacheKey.EmptyArgsKey | src/talos_mcp/core/cache.py:46-47 | a record of the key for an empty dictionary, `tool:`; it unfolds the definition |
| CacheKey.ArgsStringUnique | src/talos_mcp/core/cache.py:46 | equal argument strings come from equal sorted item lists |
| CacheKey.KeyCollision | src/talos_mcp/core/cache.py:35-47 | for colon-free tool names, two keys are equal iff the tools are equal and the dictionaries hold the same pairs, whatever their order |
| CacheKey.ChangedValueChangesKey | src/talos_mcp/core/cache.py:46-47 | changing the value of one argument changes the key |
| CacheKey.ToolPart | src/talos_mcp/core/cache.py:134 | the tool part of a key is a colon-free prefix of it |
| CacheKey.ToolPartIsFirstField | src/talos_mcp/core/cache.py:134 | the tool part is the first field of `key.split(":")` |
| CacheKey.ToolPartOfKey | src/talos_mcp/core/cache.py:47 | the tool part of a key built for a colon-free tool is that tool |
| CacheKey.KeyPrefix | src/talos_mcp/core/cache.py:109 | a key starts with `name + ":"` iff it was built for `name` (colon-free names) |
| Cache.LookupAbsent | src/talos_mcp/core/cache.py:64-65 | `get` of an absent key answers None and changes nothing |
| Cache.LookupExpired | src/talos_mcp/core/cache.py:67-74 | an entry older than the TTL answers None and is the only entry deleted |
| Cache.LookupFresh | src/talos_mcp/core/cache.py:67-77 | an entry whose age is at most the TTL, equality included, is a hit and nothing changes |
| Cache.SetThenGet | src/talos_mcp/core/cache.py:79-90 | a `set` then a `get` at the same instant with a non-negative TTL answers the stored value |
| Cache.StoreFrame | src/talos_mcp/core/cache.py:87-89 | `set` adds or overwrites its own key and leaves every other entry as it was |
| Cache.SetThenGetReordered | src/talos_mcp/core/cache.py:35-90 | a `get` with the same pairs in another order hits what `set` stored |
| Cache.SetSparesOtherArguments | src/talos_mcp/core/cache.py:35-90 | a `set` for one dictionary does not change what `get` answers for any dictionary that does not hold exactly the same pairs, whichever side has the extra pair |
| Cache.DoomedByTool | src/talos_mcp/core/cache.py:109 | invalidating `name` removes a colon-free tool's key iff that tool is `name` |
| Cache.CountByTool | src/talos_mcp/core/cache.py:132-135 | the counting loop gives each tool part among the keys its number of keys, and the counts sum to the number of keys |
| Cache.ToolCache.constructor | src/talos_mcp/core/cache.py:30-33 | a new cache is empty |
| Cache.ToolCache.Get | src/talos_mcp/core/cache.py:49-77 | the answer and the new table are those of `Lookup`: absent is a miss, older than the TTL is a miss that deletes the entry, otherwise a hit |
| Cache.ToolCache.Set | src/talos_mcp/core/cache.py:79-90 | the new table stores the result under the key, stamped `now` |
| Cache.ToolCache.Invalidate | src/talos_mcp/core/cache.py:92-113 | with no name, the table is emptied and its old size returned; with a name, exactly the keys starting with `name:` are removed, the rest are kept unchanged, and their number is returned |
| Cache.ToolCache.InvalidateAll | src/talos_mcp/core/cache.py:115-121 | the table is emptied and its old size returned |
| Cache.ToolCache.GetStats | src/talos_mcp/core/cache.py:123-140 | nothing changes; the total is the table size; a tool appears iff some key has it as tool part, with the number of such keys; the per-tool counts sum to the total |
| Cache.CachedToolCall | src/talos_mcp/core/cache.py:156-210 | with a TTL of 30 seconds unless given, under the tool's name, or "unknown": a hit answers the cached value without calling the function; a miss calls it, stores its result unless the first text starts with "Error" or a fenced "Error", and answers it |
| Cache.InvalidateOnMutationCall | src/talos_mcp/core/cache.py:213-241 | the function's result is answered unchanged and the cache is empty afterwards |
| Exceptions.Value | src/talos_mcp/core/exceptions.py:6-35 | every code's value lies in the hundreds of its band (1xx general … 5xx validation) |
| Exceptions.ValueRoundTrip | src/talos_mcp/core/exceptions.py:6-35 | a code is recovered from its value |
| Exceptions.ValuesDistinct | src/talos_mcp/core/exceptions.py:6-35 | different codes have different values |
| Exceptions.NameRoundTrip | src/talos_mcp/core/exceptions.py:6-35 | a code is recovered from its name |
| Exceptions.FirstMatch | src/talos_mcp/core/exceptions.py:175-177 | the index found is of a pattern that occurs with no earlier one occurring; none is found only when no pattern occurs |
| Exceptions.InferErrorCode | src/talos_mcp/core/exceptions.py:142-179 | an explicit code other than COMMAND_FAILED is kept; 127, 126 and 124/143 give COMMAND_NOT_FOUND, PERMISSION_DENIED and TIMEOUT; otherwise COMMAND_FAILED iff no pattern occurs in the lower-cased stderr, and else the code of the first pattern that occurs |
| Exceptions.FirstMatchIs | src/talos_mcp/core/exceptions.py:175-177 | the first occurring pattern is the one the search finds |
| Exceptions.InferByFirstMatch | src/talos_mcp/core/exceptions.py:156-177 | past the exit-code checks, the first occurring pattern decides the code |
| Exceptions.InferConnectionRefused | src/talos_mcp/core/exceptions.py:156-158 | a stderr starting with "connection refused" in any case gives CONNECTION_FAILED |
| Exceptions.InferTimeoutPatterns | src/talos_mcp/core/exceptions.py:162-164 | "timeout", "deadline exceeded" or "context deadline" gives TIMEOUT when no connection pattern occurs |
| Exceptions.InferredCodesHaveTemplates | src/talos_mcp/core/exceptions.py:82-179 | every code inferred from a bare failure is COMMAND_FAILED or has a user template |
| Exceptions.UserMessage | src/talos_mcp/core/exceptions.py:181-190 | the message is the template and "Technical details: ", or "Operation failed: ", followed by the untouched stderr, which ends it |
| Exceptions.GetUserMessage | src/talos_mcp/core/exceptions.py:181-190 | the user message of a command error ends with its stderr |
| Exceptions.NewTalosError | src/talos_mcp/core/exceptions.py:41-50 | the message and code are stored, the code defaulting to UNKNOWN |
| Exceptions.NewConnectionError | src/talos_mcp/core/exceptions.py:68-75 | the message and code are stored, the code defaulting to CONNECTION_FAILED |
| Exceptions.CommandMessageRoundTrip | src/talos_mcp/core/exceptions.py:139 | the message "Command failed with code N: stderr" gives back the exit code and the stderr |
| Exceptions.NewCommandError | src/talos_mcp/core/exceptions.py:117-140 | command, exit code and stderr are stored unchanged, the code is the inferred one, and the message determines the exit code and the stderr |
| Exceptions.ToDict | src/talos_mcp/core/exceptions.py:192-207 | the dictionary has exactly the base keys, plus command, returncode, stderr and user_message for a command error, with the stored values |
| Exceptions.ToDictCode | src/talos_mcp/core/exceptions.py:58-62 | the code is recovered both from the dictionary's `code` and from its `code_name` |
| Base.ExecuteTalosctl | src/talos_mcp/tools/base.py:54-76 | the result is one text: the fenced output, or "Error executing NAME:" and the user message or the exception text |
| Base.FencedOutputShape | src/talos_mcp/tools/base.py:65-70 | the output is fenced, and inside the fence it is the stdout alone when stderr is empty and the stderr alone when stdout is empty |
| Base.CommandErrorTextEndsWithStderr | src/talos_mcp/tools/base.py:71-74 | the text for a command error ends with its stderr |
| Base.EnsureNodes | src/talos_mcp/tools/base.py:78-90 | nodes that are given, non-empty and not "all"/"cluster" in any case are returned unchanged |
| Base.EnsureNodesDefaultSplits | src/talos_mcp/tools/base.py:87-89 | otherwise, for a non-empty list of comma-free client nodes, the result splits on commas into the client's nodes |
| Base.EnsureNodesNoClientNodes | src/talos_mcp/tools/base.py:87-89 | otherwise, for a client without nodes, the result is the empty string |
| Base.EnsureNodesIdempotent | src/talos_mcp/tools/base.py:78-90 | feeding the result back in gives the same nodes |
| Base.ClassDefaults | src/talos_mcp/tools/base.py:20-156 | a record of the class defaults: without overrides, a tool is a mutation iff it is a `MutatingTool`, and its TTL is 30 seconds; it unfolds the constants |
| Base.FailuresNotCached | src/talos_mcp/tools/base.py:71-129 | no failure text of `execute_talosctl` passes the cache filter of `CachedTool.run` or of `cached_tool` |
| Base.SuccessCachedUnlessFailed | src/talos_mcp/tools/base.py:124-129 | a successful output is cached iff its text does not contain "failed" in any case |
| Base.CachedToolRun | src/talos_mcp/tools/base.py:105-134 | a hit answers the cached value without `_run_impl`; a miss runs it once, stores the result unless the text starts with "Error" or mentions "failed", and answers it |
| Base.MutatingToolRun | src/talos_mcp/tools/base.py:158-174 | `_run_impl`'s result is answered unchanged and the cache is empty afterwards |
| Base.RunTool | src/talos_mcp/tools/base.py:93-174 | each base class runs as its `run` does; a plain `TalosTool` leaves the cache unchanged |
| Base.RepeatedRunUsesCache | src/talos_mcp/tools/base.py:114-132 | a second run with the same arguments within the TTL does not call `_run_impl` and answers the first result |
| Base.DifferentArgumentsRunTwice | src/talos_mcp/tools/base.py:117-132 | runs with dictionaries that do not hold the same pairs, including one that strictly contains the other, both call `_run_impl` |
| Base.FailuresRunTwice | src/talos_mcp/tools/base.py:124-132 | a failing talosctl call is run again the next time; the cache stays empty |
| Base.MutationForcesFreshRun | src/talos_mcp/tools/base.py:114-174 | after a mutating run, the next cached run calls `_run_impl` |
| Cluster.RebootCommand | src/talos_mcp/tools/cluster.py:52-58 | the list is `reboot -n NODES`, followed by `--mode MODE` iff the mode is not "default" |
| Cluster.RebootRoundTrip | src/talos_mcp/tools/cluster.py:55-57 | the reboot list gives back the arguments |
| Cluster.ShutdownCommand | src/talos_mcp/tools/cluster.py:97-103 | the list is `shutdown -n NODES`, followed by `--force` iff forced |
| Cluster.ShutdownRoundTrip | src/talos_mcp/tools/cluster.py:100-102 | the shutdown list gives back the arguments |
| Cluster.ResetCommand | src/talos_mcp/tools/cluster.py:122-132 | the list is `reset -n NODES`, then in order `--reboot`, `--system-labels-to-wipe LABELS` and `--graceful=false`, each only when it applies |
| Cluster.ResetRoundTrip | src/talos_mcp/tools/cluster.py:125-131 | the reset list gives back the arguments |
| Cluster.UpgradeCommand | src/talos_mcp/tools/cluster.py:186-192 | the list is `upgrade -n NODES --image IMAGE`, followed by `--preserve` iff preserving |
| Cluster.UpgradeRoundTrip | src/talos_mcp/tools/cluster.py:189-191 | the upgrade list gives back the arguments |
| Cluster.ImageCommand | src/talos_mcp/tools/cluster.py:215-242 | "pull" or "cache-create" without an image is refused with "Image name required for CMD"; otherwise the list is `image`, the sub-command with its non-empty options, then `-n NODES` |
| Cluster.ImageToolRun | src/talos_mcp/tools/cluster.py:215-244 | talosctl runs iff the request is not refused; a refusal answers its message |
| Cluster.ImageRoundTrip | src/talos_mcp/tools/cluster.py:219-242 | a built image list gives back the arguments, with an unknown sub-command read as "list" and unused options dropped |
| Cluster.ImageArgvIgnoresUnusedOptions | src/talos_mcp/tools/cluster.py:219-242 | dropping the options a sub-command does not use leaves the list unchanged |
| Cluster.BootstrapCommand | src/talos_mcp/tools/cluster.py:260-268 | the list is `bootstrap -n` and the nodes after `ensure_nodes` |
| Cluster.BootstrapDefaultsToClientNodes | src/talos_mcp/tools/cluster.py:263 | bootstrapping "", "all" or "cluster" targets every node of the client |
| Cluster.ClusterShowCommand | src/talos_mcp/tools/cluster.py:286-296 | the list is `cluster show`, followed by `-n NODES` iff nodes are given and non-empty |
| Cluster.ClusterShowRoundTrip | src/talos_mcp/tools/cluster.py:292-294 | the list gives back the arguments, an empty node string read as none |
| Cluster.ClusterToolClasses | src/talos_mcp/tools/cluster.py:18-279 | reboot, shutdown, reset, upgrade and bootstrap are mutations on `MutatingTool`; the image tool is a mutation on the plain base class, so it leaves the cache alone; cluster show is neither; a record of the class layout that unfolds the constants |

## Left out

- The `asyncio.Lock` and async scheduling. Each cache operation is one atomic sequential method, which gives the lock's atomicity.
- `time.time()` and float TTLs. The clock is an integer millisecond parameter, and the TTLs of other tool files (300, 60 and 60 seconds in src/talos_mcp/tools/system.py) are not part of this model.
- Python's `str()` of argument values in `_make_key`.
  - Values are strings, rendered in single quotes with `'` and `\` escaped.
  - Python's repr switches to double quotes for a value containing `'`, escapes non-printable characters, and renders non-string values differently. None of that is modelled.
  - `KeyCollision` and the lemmas built on it assume tool names without `:`, as every tool name in the repository is.
- A cached result that is itself `None` reads as a miss in the source. The model stores `seq<Content>` values, which are never `None`.
- Text.Lower: models `lower()` on ASCII letters only and keeps the length. Python's `str.lower` also maps non-ASCII letters, and some of them to more than one character ("İ" becomes two code points). Those mappings are not modelled.
- The global cache singleton `get_cache`. Every operation takes the cache instance explicitly.
- The talosctl process call and `TalosClient`. The outcome of a call and the client's node list are inputs.
- pydantic schema validation, `TextContent`/`Tool` construction and `get_definition`.
  - A tool result is a sequence of `Content` items, each a text or something without a `text`.
  - An argument record is a datatype with the schema's defaults.
- Logging through loguru.
- Base.CachedToolRun, Base.MutatingToolRun, Cache.CachedToolCall and Cache.InvalidateOnMutationCall: the run function (`_run_impl`, or the decorated function) always returns a value, `produced`. In the source, an exception it raises propagates: nothing is stored, `invalidate_all()` is not reached, and the server turns the exception into an error text. The model does not capture that path, so these members promise a store or a cleared cache on every call.
- The decorators' `_cache_ttl` and `_cache_enabled` attributes.
- The server entry point, the settings and the other tool files. They are not part of this model.
- Base.EnsureNodes: its contract states only the pass-through case. The defaulting case is stated by `EnsureNodesDefaultSplits` for a non-empty list of client nodes without commas, and by `EnsureNodesNoClientNodes` for an empty list. No contract states the result for client nodes that contain commas.
