/**
 * The tool base classes: `TalosTool` (running talosctl and rendering its
 * outcome as text, defaulting the node list), `CachedTool` (a run answered
 * from the cache when it can be) and `MutatingTool` (a run that empties the
 * cache afterwards).
 *
 * Running talosctl is outside the model: its outcome is an input. So is the
 * result of a tool's own `_run_impl`; whether it was called is an output.
 */
module Base {
  import opened Wrappers
  import opened Text
  import opened CacheKey
  import opened Cache
  import opened Exceptions

  /** How a call to talosctl ended: with its two output streams, with a raised
      `TalosError`, or with another exception, of which only `str(e)` matters. */
  datatype ExecOutcome =
    | Completed(stdout: string, stderr: string)
    | Raised(error: TalosError)
    | Crashed(description: string)

  /** The success text: stdout, then a blank line and stderr when both are
      non-empty, inside a code fence. */
  function FencedOutput(stdout: string, stderr: string): string {
    var body := if stdout == "" then stderr
                else if stderr == "" then stdout
                else stdout + "\n\n" + stderr;
    "```\n" + body + "\n```"
  }

  /** The failure text of tool `name`. */
  function FailureText(name: string, detail: string): string {
    "Error executing " + name + ":\n" + detail
  }

  /** The text `execute_talosctl` produces for an outcome. A command error
      shows its user message; any other exception its string form. */
  function OutcomeText(name: string, outcome: ExecOutcome): string {
    match outcome
    case Completed(out, err) => FencedOutput(out, err)
    case Raised(e) => FailureText(name, if e.CommandError? then GetUserMessage(e) else e.message)
    case Crashed(d) => FailureText(name, d)
  }

  /** `TalosTool.execute_talosctl`: builds the output text piece by piece. */
  method ExecuteTalosctl(name: string, outcome: ExecOutcome) returns (result: seq<Content>)
    ensures result == [TextContent(OutcomeText(name, outcome))]
  {
    match outcome {
      case Completed(stdout, stderr) =>
        var output := stdout;
        if stderr != "" {
          if output != "" {
            output := output + "\n\n";
          }
          output := output + stderr;
        }
        assert stdout == "" ==> output == stderr;
        result := [TextContent("```\n" + output + "\n```")];
      case Raised(e) =>
        if e.CommandError? {
          var userMsg := GetUserMessage(e);
          result := [TextContent("Error executing " + name + ":\n" + userMsg)];
        } else {
          result := [TextContent("Error executing " + name + ":\n" + e.message)];
        }
      case Crashed(description) =>
        result := [TextContent("Error executing " + name + ":\n" + description)];
    }
  }

  /** A successful run is fenced, and with one stream empty the fence holds
      exactly the other. */
  lemma FencedOutputShape(stdout: string, stderr: string)
    ensures StartsWith(FencedOutput(stdout, stderr), "```\n")
    ensures EndsWith(FencedOutput(stdout, stderr), "\n```")
    ensures stderr == "" ==> FencedOutput(stdout, stderr)[4..|FencedOutput(stdout, stderr)| - 4] == stdout
    ensures stdout == "" ==> FencedOutput(stdout, stderr)[4..|FencedOutput(stdout, stderr)| - 4] == stderr
  {
    var body := if stdout == "" then stderr
                else if stderr == "" then stdout
                else stdout + "\n\n" + stderr;
    var text := FencedOutput(stdout, stderr);
    assert text == "```\n" + body + "\n```";
    assert text[..4] == "```\n";
    assert text[|text| - 4..] == "\n```";
    assert text[4..|text| - 4] == body;
  }

  /** A command error's text ends with its stderr. */
  lemma CommandErrorTextEndsWithStderr(name: string, e: TalosError)
    requires e.CommandError?
    ensures EndsWith(OutcomeText(name, Raised(e)), e.stderr)
  {
    var m := GetUserMessage(e);
    var text := FailureText(name, m);
    assert text == ("Error executing " + name + ":\n") + m;
    assert text[|text| - |e.stderr|..] == m[|m| - |e.stderr|..];
  }

  /** `ensure_nodes`: the client's nodes joined by commas when no nodes are given,
      the empty string is given, or "all"/"cluster" in any case; otherwise the
      given nodes. */
  function EnsureNodes(nodes: Option<string>, clientNodes: seq<string>): (r: string)
    ensures (nodes != None && nodes.value != "" && Lower(nodes.value) != "all"
             && Lower(nodes.value) != "cluster") ==> r == nodes.value
  {
    if nodes == None || nodes.value == "" || Lower(nodes.value) in ["all", "cluster"] then
      Join(clientNodes, ",")
    else
      nodes.value
  }

  /** A client without nodes defaults to the empty node string. */
  lemma EnsureNodesNoClientNodes(nodes: Option<string>)
    requires nodes == None || nodes.value == "" || Lower(nodes.value) in ["all", "cluster"]
    ensures EnsureNodes(nodes, []) == ""
  {
  }

  /** The defaulted node list splits back into the client's nodes. */
  lemma EnsureNodesDefaultSplits(nodes: Option<string>, clientNodes: seq<string>)
    requires nodes == None || nodes.value == "" || Lower(nodes.value) in ["all", "cluster"]
    requires |clientNodes| >= 1
    requires forall i :: 0 <= i < |clientNodes| ==> ',' !in clientNodes[i]
    ensures Split(EnsureNodes(nodes, clientNodes), ',') == clientNodes
  {
    SplitJoin(clientNodes, ',');
  }

  /** Feeding the result of `ensure_nodes` back in changes nothing. */
  lemma EnsureNodesIdempotent(nodes: Option<string>, clientNodes: seq<string>)
    ensures EnsureNodes(Some(EnsureNodes(nodes, clientNodes)), clientNodes) == EnsureNodes(nodes, clientNodes)
  {
  }

  // ---------------------------------------------------------------------------
  // Tool classes
  // ---------------------------------------------------------------------------

  /** The base class a tool derives from. */
  datatype BaseClass = TalosToolBase | CachedToolBase | MutatingToolBase

  /** A tool class: its name, its base class, and the class attributes it
      overrides (`is_mutation`, `cache_ttl`). */
  datatype ToolClass = ToolClass(name: string, base: BaseClass,
                                 isMutationOverride: Option<bool>, cacheTtlOverride: Option<int>)

  /** `CachedTool.cache_ttl`, 30 seconds. */
  const DefaultCacheTtl: int := 30_000

  /** `is_mutation`: False on `TalosTool`, True on `MutatingTool`, unless overridden. */
  function IsMutation(t: ToolClass): bool {
    t.isMutationOverride.GetOr(t.base == MutatingToolBase)
  }

  /** `cache_ttl` of a cached tool. */
  function CacheTtl(t: ToolClass): int {
    t.cacheTtlOverride.GetOr(DefaultCacheTtl)
  }

  /** Without an override, exactly the mutating tools are mutations, and a cached
      tool keeps results for 30 seconds. */
  lemma ClassDefaults(t: ToolClass)
    requires t.isMutationOverride == None && t.cacheTtlOverride == None
    ensures IsMutation(t) <==> t.base == MutatingToolBase
    ensures CacheTtl(t) == 30_000
  {
  }

  // ---------------------------------------------------------------------------
  // CachedTool.run and MutatingTool.run
  // ---------------------------------------------------------------------------

  /** Whether `CachedTool.run` stores a result: not when its first item is a text
      that starts with "Error" or mentions "failed" in any case. */
  predicate ShouldCache(result: seq<Content>) {
    !(|result| > 0 && result[0].TextContent?
      && (StartsWith(result[0].text, "Error") || Contains(Lower(result[0].text), "failed")))
  }

  /** Every failure text of `execute_talosctl` is left out of the cache, by both
      the base class and the decorator. */
  lemma FailuresNotCached(name: string, outcome: ExecOutcome)
    requires !outcome.Completed?
    ensures !ShouldCache([TextContent(OutcomeText(name, outcome))])
    ensures !WrapperShouldCache([TextContent(OutcomeText(name, outcome))])
  {
    match outcome
    case Raised(e) =>
      FailureTextStartsWithError(name, if e.CommandError? then GetUserMessage(e) else e.message);
    case Crashed(d) =>
      FailureTextStartsWithError(name, d);
  }

  lemma FailureTextStartsWithError(name: string, detail: string)
    ensures StartsWith(FailureText(name, detail), "Error")
  {
    var text := FailureText(name, detail);
    assert text == "Error" + (" executing " + name + ":\n" + detail);
    assert text[..5] == "Error";
  }

  /** A successful run is fenced, so it is cached unless its text mentions
      "failed" in some case. */
  lemma SuccessCachedUnlessFailed(name: string, stdout: string, stderr: string)
    ensures var text := OutcomeText(name, Completed(stdout, stderr));
            ShouldCache([TextContent(text)]) <==> !Contains(Lower(text), "failed")
  {
    FencedOutputShape(stdout, stderr);
  }

  /**
   * `CachedTool.run` of the tool `name` with TTL `cacheTtl`: a hit answers the
   * cached result without calling `_run_impl`; a miss calls it once, stores
   * its result (stamped `done`) unless it looks like an error, and answers it.
   */
  method CachedToolRun(name: string, cacheTtl: int, cache: ToolCache<seq<Content>>,
                       arguments: seq<Argument>, now: int, done: int, produced: seq<Content>)
    returns (result: seq<Content>, invoked: bool)
    modifies cache
    ensures
      var key := MakeKey(name, arguments);
      var (hit, after) := Lookup(old(cache.entries), key, cacheTtl, now);
      && (hit != None ==> result == hit.value && !invoked && cache.entries == after)
      && (hit == None ==>
            && result == produced && invoked
            && cache.entries == if ShouldCache(produced) then Store(after, key, produced, done) else after)
  {
    var cachedResult := cache.Get(name, arguments, cacheTtl, now);
    if cachedResult != None {
      return cachedResult.value, false;
    }
    result, invoked := produced, true;
    var shouldCache := true;
    if |result| > 0 && result[0].TextContent? {
      var text := result[0].text;
      if StartsWith(text, "Error") || Contains(Lower(text), "failed") {
        shouldCache := false;
      }
    }
    if shouldCache {
      cache.Set(name, arguments, result, done);
    }
  }

  /** `MutatingTool.run`: the result of `_run_impl`, unchanged, and an empty cache. */
  method MutatingToolRun<V>(cache: ToolCache<V>, produced: seq<Content>) returns (result: seq<Content>)
    modifies cache
    ensures result == produced && cache.entries == map[]
  {
    result := produced;
    var _ := cache.InvalidateAll();
  }

  /** `run` of a tool class: by its base class, or its own `run` on the plain base
      class, which does not touch the cache. */
  method RunTool(tool: ToolClass, cache: ToolCache<seq<Content>>, arguments: seq<Argument>,
                 now: int, done: int, produced: seq<Content>)
    returns (result: seq<Content>, invoked: bool)
    modifies cache
    ensures tool.base == TalosToolBase ==> result == produced && invoked && cache.entries == old(cache.entries)
    ensures tool.base == MutatingToolBase ==> result == produced && invoked && cache.entries == map[]
    ensures tool.base == CachedToolBase ==>
      var key := MakeKey(tool.name, arguments);
      var (hit, after) := Lookup(old(cache.entries), key, CacheTtl(tool), now);
      && (hit != None ==> result == hit.value && !invoked && cache.entries == after)
      && (hit == None ==>
            && result == produced && invoked
            && cache.entries == if ShouldCache(produced) then Store(after, key, produced, done) else after)
  {
    match tool.base {
      case TalosToolBase =>
        result, invoked := produced, true;
      case MutatingToolBase =>
        result := MutatingToolRun(cache, produced);
        invoked := true;
      case CachedToolBase =>
        result, invoked := CachedToolRun(tool.name, CacheTtl(tool), cache, arguments, now, done, produced);
    }
  }

  // ---------------------------------------------------------------------------
  // Runs in sequence
  // ---------------------------------------------------------------------------

  /** Two runs with the same arguments on an empty cache: when the first result
      is cacheable and the second run comes within the TTL of the first one's
      store, `_run_impl` runs once and both runs answer the same. */
  method RepeatedRunUsesCache(name: string, cacheTtl: int, cache: ToolCache<seq<Content>>,
                              arguments: seq<Argument>, t1: int, d1: int, t2: int, d2: int,
                              produced1: seq<Content>, produced2: seq<Content>)
    returns (r1: seq<Content>, r2: seq<Content>, invoked1: bool, invoked2: bool)
    requires cache.entries == map[]
    requires ShouldCache(produced1) && t2 - d1 <= cacheTtl
    modifies cache
    ensures invoked1 && !invoked2 && r1 == produced1 && r2 == r1
  {
    r1, invoked1 := CachedToolRun(name, cacheTtl, cache, arguments, t1, d1, produced1);
    r2, invoked2 := CachedToolRun(name, cacheTtl, cache, arguments, t2, d2, produced2);
  }

  /** Runs with two dictionaries that do not hold the same pairs each call `_run_impl`. */
  method DifferentArgumentsRunTwice(name: string, cacheTtl: int, cache: ToolCache<seq<Content>>,
                                    a1: seq<Argument>, a2: seq<Argument>, t1: int, d1: int, t2: int, d2: int,
                                    produced1: seq<Content>, produced2: seq<Content>)
    returns (r1: seq<Content>, r2: seq<Content>, invoked1: bool, invoked2: bool)
    requires cache.entries == map[]
    requires ':' !in name && DistinctNames(a1) && DistinctNames(a2)
    requires !(forall x :: x in a1 <==> x in a2)
    modifies cache
    ensures invoked1 && invoked2 && r1 == produced1 && r2 == produced2
  {
    r1, invoked1 := CachedToolRun(name, cacheTtl, cache, a1, t1, d1, produced1);
    KeyCollision(name, a1, name, a2);
    r2, invoked2 := CachedToolRun(name, cacheTtl, cache, a2, t2, d2, produced2);
  }

  /** A failing talosctl call is run again on the next call: nothing was cached. */
  method FailuresRunTwice(name: string, cacheTtl: int, cache: ToolCache<seq<Content>>,
                          arguments: seq<Argument>, outcome: ExecOutcome, t1: int, d1: int, t2: int, d2: int)
    returns (r1: seq<Content>, r2: seq<Content>, invoked1: bool, invoked2: bool)
    requires cache.entries == map[]
    requires !outcome.Completed?
    modifies cache
    ensures invoked1 && invoked2 && r1 == r2 && cache.entries == map[]
  {
    var produced := ExecuteTalosctl(name, outcome);
    FailuresNotCached(name, outcome);
    r1, invoked1 := CachedToolRun(name, cacheTtl, cache, arguments, t1, d1, produced);
    r2, invoked2 := CachedToolRun(name, cacheTtl, cache, arguments, t2, d2, produced);
  }

  /** A mutating run after a cached one leaves nothing for the next cached run. */
  method MutationForcesFreshRun(reader: string, cacheTtl: int, cache: ToolCache<seq<Content>>,
                                arguments: seq<Argument>, t1: int, d1: int, t2: int, d2: int,
                                produced1: seq<Content>, mutated: seq<Content>, produced2: seq<Content>)
    returns (r2: seq<Content>, invoked2: bool)
    modifies cache
    ensures invoked2 && r2 == produced2
  {
    var r1, invoked1 := CachedToolRun(reader, cacheTtl, cache, arguments, t1, d1, produced1);
    var m := MutatingToolRun(cache, mutated);
    r2, invoked2 := CachedToolRun(reader, cacheTtl, cache, arguments, t2, d2, produced2);
  }
}
