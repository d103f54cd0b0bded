/**
 * `ToolCache`: a table from cache keys to (result, timestamp) pairs, read with
 * a time-to-live and expired lazily, plus the two wrappers `cached_tool` and
 * `invalidate_on_mutation` that put it in front of a tool's run function.
 *
 * Time is an integer number of milliseconds: every operation that reads the
 * clock takes the reading as a parameter (`now`), and a TTL is a number of
 * milliseconds.
 */
module Cache {
  import opened Wrappers
  import opened Text
  import opened CacheKey

  /** A stored result together with the instant it was stored. */
  datatype Entry<V> = Entry(value: V, stamp: int)

  type Table<V> = map<string, Entry<V>>

  /** One item of a tool result: a `TextContent` or something without a `text`. */
  datatype Content = TextContent(text: string) | OtherContent

  /** The default TTL of `cached_tool`, 30 seconds. */
  const DefaultTtl: int := 30_000

  // ---------------------------------------------------------------------------
  // The table-level meaning of the operations
  // ---------------------------------------------------------------------------

  /** What `get` returns for `key` at `now`, and the table it leaves behind. */
  function Lookup<V>(t: Table<V>, key: string, ttl: int, now: int): (Option<V>, Table<V>) {
    if key !in t then (None, t)
    else if now - t[key].stamp > ttl then (None, t - {key})
    else (Some(t[key].value), t)
  }

  /** The table after `set` stores `v` under `key` at `now`. */
  function Store<V>(t: Table<V>, key: string, v: V, now: int): Table<V> {
    t[key := Entry(v, now)]
  }

  /** The keys `invalidate(name)` removes. */
  ghost function Doomed<V>(t: Table<V>, name: string): set<string> {
    set k | k in t && StartsWith(k, name + ":")
  }

  /** The keys of `keys` whose tool part is `name`. */
  ghost function KeysFor(keys: set<string>, name: string): set<string> {
    set k | k in keys && ToolPart(k) == name
  }

  /** Some element of a non-empty set. */
  ghost function Pick(s: set<string>): string
    requires s != {}
  {
    var x :| x in s; x
  }

  /** The sum of the counts of a per-tool table. */
  ghost function SumCounts(m: map<string, nat>): nat
    decreases |m|
  {
    if m == map[] then 0
    else
      var k := Pick(m.Keys);
      m[k] + SumCounts(m - {k})
  }

  // ---------------------------------------------------------------------------
  // Properties of get and set
  // ---------------------------------------------------------------------------

  /** `get` on an absent key answers None and changes nothing. */
  lemma LookupAbsent<V>(t: Table<V>, key: string, ttl: int, now: int)
    requires key !in t
    ensures Lookup(t, key, ttl, now) == (None, t)
  {
  }

  /** An entry older than the TTL is deleted, and only that entry. */
  lemma LookupExpired<V>(t: Table<V>, key: string, ttl: int, now: int)
    requires key in t && now - t[key].stamp > ttl
    ensures Lookup(t, key, ttl, now).0 == None
    ensures Lookup(t, key, ttl, now).1.Keys == t.Keys - {key}
    ensures forall k :: k in Lookup(t, key, ttl, now).1 ==> Lookup(t, key, ttl, now).1[k] == t[k]
  {
  }

  /** An entry whose age is at most the TTL, the boundary included, is a hit. */
  lemma LookupFresh<V>(t: Table<V>, key: string, ttl: int, now: int)
    requires key in t && now - t[key].stamp <= ttl
    ensures Lookup(t, key, ttl, now) == (Some(t[key].value), t)
  {
  }

  /** `set` then `get` of the same key at the same instant gives the stored value
      back, for any TTL that is not negative. */
  lemma SetThenGet<V>(t: Table<V>, key: string, v: V, ttl: int, now: int)
    requires ttl >= 0
    ensures Lookup(Store(t, key, v, now), key, ttl, now) == (Some(v), Store(t, key, v, now))
  {
  }

  /** `set` touches only its own key. */
  lemma StoreFrame<V>(t: Table<V>, key: string, v: V, now: int)
    ensures Store(t, key, v, now).Keys == t.Keys + {key}
    ensures forall k :: k in t && k != key ==> Store(t, key, v, now)[k] == t[k]
  {
  }

  /** The reordered dictionary of a `set` is a hit for `get`: the key does not
      depend on insertion order. */
  lemma SetThenGetReordered<V>(t: Table<V>, tool: string, a1: seq<Argument>, a2: seq<Argument>,
                               v: V, ttl: int, now: int)
    requires ':' !in tool && DistinctNames(a1) && DistinctNames(a2)
    requires forall x :: x in a1 <==> x in a2
    requires ttl >= 0
    ensures Lookup(Store(t, MakeKey(tool, a1), v, now), MakeKey(tool, a2), ttl, now).0 == Some(v)
  {
    KeyCollision(tool, a1, tool, a2);
  }

  /** A `set` for one dictionary leaves the entry of any dictionary without the same pairs alone. */
  lemma SetSparesOtherArguments<V>(t: Table<V>, tool: string, a1: seq<Argument>, a2: seq<Argument>,
                                   v: V, ttl: int, now: int)
    requires ':' !in tool && DistinctNames(a1) && DistinctNames(a2)
    requires !(forall x :: x in a1 <==> x in a2)
    ensures Lookup(Store(t, MakeKey(tool, a1), v, now), MakeKey(tool, a2), ttl, now).0
         == Lookup(t, MakeKey(tool, a2), ttl, now).0
  {
    KeyCollision(tool, a1, tool, a2);
  }

  // ---------------------------------------------------------------------------
  // Properties of invalidate and get_stats
  // ---------------------------------------------------------------------------

  /** Invalidating a colon-free tool name removes the key of a colon-free tool
      exactly when the two names are equal. */
  lemma DoomedByTool<V>(t: Table<V>, name: string, tool: string, args: seq<Argument>)
    requires ':' !in name && ':' !in tool
    requires MakeKey(tool, args) in t
    ensures MakeKey(tool, args) in Doomed(t, name) <==> tool == name
  {
    KeyPrefix(tool, args, name);
  }

  lemma {:induction false} SumRemove(m: map<string, nat>, x: string)
    requires x in m
    ensures SumCounts(m) == m[x] + SumCounts(m - {x})
    decreases |m|
  {
    var k := Pick(m.Keys);
    if k != x {
      SumRemove(m - {k}, x);
      SumRemove(m - {x}, k);
      assert m - {k} - {x} == m - {x} - {k};
    }
  }

  /** `tools[name] = tools.get(name, 0) + 1`. */
  function Bump(m: map<string, nat>, name: string): map<string, nat> {
    m[name := if name in m then m[name] + 1 else 1]
  }

  /** Adding one to a count, or starting a count at one, adds one to the sum. */
  lemma CountStep(m: map<string, nat>, name: string)
    ensures SumCounts(Bump(m, name)) == SumCounts(m) + 1
  {
    var m' := Bump(m, name);
    SumRemove(m', name);
    if name in m {
      SumRemove(m, name);
      assert m' - {name} == m - {name};
    } else {
      assert m' - {name} == m;
    }
  }

  /** `tools` holds, for each tool part among the keys `seen`, how many of them
      have it, and the counts add up to the number of keys. */
  ghost predicate CountsOf(tools: map<string, nat>, seen: set<string>) {
    && (forall name :: name in tools <==> exists k :: k in seen && ToolPart(k) == name)
    && (forall name :: name in tools ==> tools[name] == |KeysFor(seen, name)|)
    && SumCounts(tools) == |seen|
  }

  /** Counting one more key keeps the set of tool parts right. */
  lemma PresenceStep(tools: map<string, nat>, seen: set<string>, key: string)
    requires forall name :: name in tools <==> exists k :: k in seen && ToolPart(k) == name
    ensures forall name :: name in Bump(tools, ToolPart(key)) <==> exists k :: k in seen + {key} && ToolPart(k) == name
  {
    var tools' := Bump(tools, ToolPart(key));
    forall other
      ensures other in tools' <==> exists k :: k in seen + {key} && ToolPart(k) == other
    {
      if other == ToolPart(key) {
        assert key in seen + {key} && ToolPart(key) == other;
      } else if exists k :: k in seen + {key} && ToolPart(k) == other {
        var k :| k in seen + {key} && ToolPart(k) == other;
        assert k in seen;
      }
    }
  }

  /** One more key joins the keys of its own tool part and no other. */
  lemma KeysForAdd(seen: set<string>, key: string, name: string)
    ensures KeysFor(seen + {key}, name)
         == if ToolPart(key) == name then KeysFor(seen, name) + {key} else KeysFor(seen, name)
  {
  }

  /** Counting one more key keeps each tool's count right. */
  lemma PerToolStep(tools: map<string, nat>, seen: set<string>, key: string)
    requires forall name :: name in tools <==> exists k :: k in seen && ToolPart(k) == name
    requires forall name :: name in tools ==> tools[name] == |KeysFor(seen, name)|
    requires key !in seen
    ensures forall name :: name in Bump(tools, ToolPart(key)) ==>
              Bump(tools, ToolPart(key))[name] == |KeysFor(seen + {key}, name)|
  {
    var name := ToolPart(key);
    var tools' := Bump(tools, name);
    if name !in tools {
      assert KeysFor(seen, name) == {};
    }
    forall other | other in tools'
      ensures tools'[other] == |KeysFor(seen + {key}, other)|
    {
      KeysForAdd(seen, key, other);
    }
  }

  /** Counting one more key keeps the counts right. */
  lemma CountsOfStep(tools: map<string, nat>, seen: set<string>, key: string)
    requires CountsOf(tools, seen) && key !in seen
    ensures CountsOf(Bump(tools, ToolPart(key)), seen + {key})
  {
    var tools' := Bump(tools, ToolPart(key));
    CountStep(tools, ToolPart(key));
    assert |seen + {key}| == |seen| + 1;
    assert SumCounts(tools') == |seen + {key}|;
    PresenceStep(tools, seen, key);
    PerToolStep(tools, seen, key);
  }

  /** Counts over all the keys of a table, spelled out. */
  lemma CountsOfAll<V>(tools: map<string, nat>, t: Table<V>)
    requires CountsOf(tools, t.Keys)
    ensures forall name :: name in tools <==> exists k :: k in t && ToolPart(k) == name
    ensures forall name :: name in tools ==> tools[name] == |KeysFor(t.Keys, name)|
    ensures SumCounts(tools) == |t|
  {
  }

  /** The loop of `get_stats`: one pass over the keys, adding one to the count
      of each key's tool part. */
  method CountByTool(keys: set<string>) returns (tools: map<string, nat>)
    ensures CountsOf(tools, keys)
  {
    tools := map[];
    var pending := keys;
    ghost var seen: set<string> := {};
    while pending != {}
      invariant pending + seen == keys && pending !! seen
      invariant CountsOf(tools, seen)
      decreases pending
    {
      var key :| key in pending;
      var toolName := ToolPart(key);
      CountsOfStep(tools, seen, key);
      tools := Bump(tools, toolName);
      seen := seen + {key};
      pending := pending - {key};
    }
  }

  /** What `get_stats` returns. */
  datatype Stats = Stats(totalEntries: nat, tools: map<string, nat>)

  // ---------------------------------------------------------------------------
  // The cache object
  // ---------------------------------------------------------------------------

  class ToolCache<V> {
    var entries: Table<V>

    /** A new cache is empty. */
    constructor ()
      ensures entries == map[]
    {
      entries := map[];
    }

    /** `get`: a hit answers the stored value; an expired entry is deleted. */
    method Get(tool: string, arguments: seq<Argument>, ttl: int, now: int) returns (r: Option<V>)
      modifies this
      ensures (r, entries) == Lookup(old(entries), MakeKey(tool, arguments), ttl, now)
    {
      var key := MakeKey(tool, arguments);
      if key !in entries {
        return None;
      }
      var Entry(result, timestamp) := entries[key];
      var age := now - timestamp;
      if age > ttl {
        entries := entries - {key};
        return None;
      }
      return Some(result);
    }

    /** `set`: store `result` under the key, stamped `now`. */
    method Set(tool: string, arguments: seq<Argument>, result: V, now: int)
      modifies this
      ensures entries == Store(old(entries), MakeKey(tool, arguments), result, now)
    {
      var key := MakeKey(tool, arguments);
      entries := entries[key := Entry(result, now)];
    }

    /** `invalidate(tool_name)`: everything for None, otherwise the keys that start
        with the name and a colon; answers how many entries went. */
    method Invalidate(toolName: Option<string>) returns (count: nat)
      modifies this
      ensures toolName == None ==> entries == map[] && count == |old(entries)|
      ensures toolName != None ==>
        && entries.Keys == old(entries).Keys - Doomed(old(entries), toolName.value)
        && (forall k :: k in entries ==> entries[k] == old(entries)[k])
        && count == |Doomed(old(entries), toolName.value)|
    {
      if toolName == None {
        count := |entries|;
        entries := map[];
        return;
      }
      var name := toolName.value;
      var keysToRemove := set k | k in entries && StartsWith(k, name + ":");
      var pending := keysToRemove;
      while pending != {}
        invariant pending <= keysToRemove <= old(entries).Keys
        invariant entries.Keys == old(entries).Keys - (keysToRemove - pending)
        invariant forall k :: k in entries ==> entries[k] == old(entries)[k]
        decreases pending
      {
        var key :| key in pending;
        entries := entries - {key};
        pending := pending - {key};
      }
      count := |keysToRemove|;
    }

    /** `invalidate_all`: empties the cache and answers its former size. */
    method InvalidateAll() returns (count: nat)
      modifies this
      ensures entries == map[] && count == |old(entries)|
    {
      count := Invalidate(None);
    }

    /** `get_stats`: the number of entries and, per tool part of the keys, how many
        keys have it. The counts add up to the number of entries. */
    method GetStats() returns (stats: Stats)
      ensures stats.totalEntries == |entries|
      ensures forall name :: name in stats.tools <==> exists k :: k in entries && ToolPart(k) == name
      ensures forall name :: name in stats.tools ==> stats.tools[name] == |KeysFor(entries.Keys, name)|
      ensures SumCounts(stats.tools) == stats.totalEntries
    {
      var totalEntries := |entries|;
      var tools := CountByTool(entries.Keys);
      CountsOfAll(tools, entries);
      stats := Stats(totalEntries, tools);
    }
  }

  // ---------------------------------------------------------------------------
  // The wrappers
  // ---------------------------------------------------------------------------

  /** Whether `cached_tool` stores a result: not when its first item is a text
      starting with "Error" or with a code fence followed by "Error". */
  predicate WrapperShouldCache(result: seq<Content>) {
    !(|result| > 0 && result[0].TextContent?
      && (StartsWith(result[0].text, "Error") || StartsWith(result[0].text, "```\nError")))
  }

  /**
   * The function `cached_tool(ttl)` wraps around a run function. `selfName` is
   * the tool's `name` attribute, if it has one; `produced` is what the wrapped
   * function returns when it is called, `invoked` whether it was. The cache is
   * probed at `now` and written at `done`.
   */
  method CachedToolCall(cache: ToolCache<seq<Content>>, selfName: Option<string>,
                        arguments: seq<Argument>, ttl: int := DefaultTtl, now: int, done: int,
                        produced: seq<Content>)
    returns (result: seq<Content>, invoked: bool)
    modifies cache
    ensures
      var key := MakeKey(selfName.GetOr("unknown"), arguments);
      var (hit, after) := Lookup(old(cache.entries), key, ttl, now);
      && (hit != None ==> result == hit.value && !invoked && cache.entries == after)
      && (hit == None ==>
            && result == produced && invoked
            && cache.entries == if WrapperShouldCache(produced) then Store(after, key, produced, done) else after)
  {
    var toolName := selfName.GetOr("unknown");
    var cached := cache.Get(toolName, arguments, ttl, now);
    if cached != None {
      return cached.value, false;
    }
    result, invoked := produced, true;
    var shouldCache := true;
    if |result| > 0 && result[0].TextContent? {
      var text := result[0].text;
      if StartsWith(text, "Error") || StartsWith(text, "```\nError") {
        shouldCache := false;
      }
    }
    if shouldCache {
      cache.Set(toolName, arguments, result, done);
    }
  }

  /** The function `invalidate_on_mutation` wraps around a run function: its
      result unchanged, and an empty cache afterwards. */
  method InvalidateOnMutationCall<V>(cache: ToolCache<V>, produced: V) returns (result: V)
    modifies cache
    ensures result == produced && cache.entries == map[]
  {
    result := produced;
    var _ := cache.InvalidateAll();
  }
}
