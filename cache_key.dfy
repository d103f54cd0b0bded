/**
 * The cache key of `ToolCache._make_key`: the tool name, a colon, and the
 * rendering of the argument pairs sorted by name (nothing at all for an
 * empty argument dictionary).
 *
 * A dictionary of arguments is its `items()` in insertion order, a sequence
 * of (name, value) pairs with distinct names. Values are strings. A string
 * renders as a single-quoted literal where `'` and `\` are escaped by a
 * backslash, a pair as `('name', 'value')`, and a list as `[p1, p2, ...]`.
 */
module CacheKey {
  import opened Text

  /** One argument: (name, value). */
  type Argument = (string, string)

  // ---------------------------------------------------------------------------
  // Python's ordering of str: lexicographic by code point.
  // ---------------------------------------------------------------------------

  predicate Less(a: string, b: string)
    decreases |a|
  {
    if a == [] then b != []
    else if b == [] then false
    else if a[0] != b[0] then a[0] < b[0]
    else Less(a[1..], b[1..])
  }

  lemma {:induction false} LessIrreflexive(a: string)
    ensures !Less(a, a)
    decreases |a|
  {
    if a != [] {
      LessIrreflexive(a[1..]);
    }
  }

  lemma {:induction false} LessTransitive(a: string, b: string, c: string)
    requires Less(a, b) && Less(b, c)
    ensures Less(a, c)
    decreases |a|
  {
    if a != [] && a[0] == b[0] && b[0] == c[0] {
      LessTransitive(a[1..], b[1..], c[1..]);
    }
  }

  lemma {:induction false} LessTotal(a: string, b: string)
    requires a != b
    ensures Less(a, b) || Less(b, a)
    decreases |a|
  {
    if a != [] && b != [] && a[0] == b[0] {
      assert a == [a[0]] + a[1..] && b == [b[0]] + b[1..];
      LessTotal(a[1..], b[1..]);
    }
  }

  // ---------------------------------------------------------------------------
  // sorted(arguments.items())
  // ---------------------------------------------------------------------------

  /** Inserts `x` in front of the first pair whose name is greater than its own. */
  function Insert(x: Argument, s: seq<Argument>): (r: seq<Argument>)
    ensures multiset(r) == multiset(s) + multiset{x}
  {
    if s == [] then [x]
    else if Less(x.0, s[0].0) then [x] + s
    else
      assert s == [s[0]] + s[1..];
      [s[0]] + Insert(x, s[1..])
  }

  /** The argument pairs ordered by name. */
  function SortArgs(args: seq<Argument>): (r: seq<Argument>)
    ensures multiset(r) == multiset(args)
  {
    if args == [] then []
    else
      assert args == [args[0]] + args[1..];
      Insert(args[0], SortArgs(args[1..]))
  }

  ghost predicate DistinctNames(args: seq<Argument>) {
    forall i, j :: 0 <= i < j < |args| ==> args[i].0 != args[j].0
  }

  ghost predicate StrictlySorted(args: seq<Argument>) {
    forall i, j :: 0 <= i < j < |args| ==> Less(args[i].0, args[j].0)
  }

  lemma {:induction false} InsertKeepsOrder(x: Argument, s: seq<Argument>)
    requires StrictlySorted(s)
    requires forall y :: y in s ==> y.0 != x.0
    ensures StrictlySorted(Insert(x, s))
  {
    if s == [] {
    } else if Less(x.0, s[0].0) {
      forall j | 0 <= j < |s|
        ensures Less(x.0, s[j].0)
      {
        if j > 0 {
          LessTransitive(x.0, s[0].0, s[j].0);
        }
      }
    } else {
      LessTotal(x.0, s[0].0);
      InsertKeepsOrder(x, s[1..]);
      var t := Insert(x, s[1..]);
      forall j | 0 <= j < |t|
        ensures Less(s[0].0, t[j].0)
      {
        assert t[j] in multiset(t);
        if t[j] != x {
          assert t[j] in multiset(s[1..]);
          var k :| 0 <= k < |s[1..]| && s[1..][k] == t[j];
          assert s[k + 1] == t[j];
        }
      }
      assert Insert(x, s) == [s[0]] + t;
    }
  }

  /** Sorting dictionary items (distinct names) orders them strictly by name. */
  lemma {:induction false} SortArgsStrictlySorted(args: seq<Argument>)
    requires DistinctNames(args)
    ensures StrictlySorted(SortArgs(args))
  {
    if args != [] {
      var tail := SortArgs(args[1..]);
      SortArgsStrictlySorted(args[1..]);
      forall y | y in tail
        ensures y.0 != args[0].0
      {
        assert y in multiset(tail);
        assert y in multiset(args[1..]);
        var k :| 0 <= k < |args[1..]| && args[1..][k] == y;
        assert args[k + 1] == y;
      }
      InsertKeepsOrder(args[0], tail);
    }
  }

  /** Two strictly sorted pair lists with the same elements are the same list. */
  lemma {:induction false} StrictlySortedUnique(s: seq<Argument>, t: seq<Argument>)
    requires StrictlySorted(s) && StrictlySorted(t)
    requires forall x :: x in s <==> x in t
    ensures s == t
  {
    if s != [] {
      assert s[0] in s;
    }
    if t != [] {
      assert t[0] in t;
    }
    if s != [] && t != [] {
      assert s[0] in t;
      var j :| 0 <= j < |t| && t[j] == s[0];
      assert t[0] in s;
      var i :| 0 <= i < |s| && s[i] == t[0];
      if j > 0 {
        if i > 0 {
          LessTransitive(t[0].0, s[0].0, t[0].0);
        }
        LessIrreflexive(t[0].0);
        assert false;
      }
      forall x
        ensures x in s[1..] <==> x in t[1..]
      {
        if x in s[1..] {
          var k :| 0 <= k < |s[1..]| && s[1..][k] == x;
          assert s[k + 1] == x;
          LessIrreflexive(s[0].0);
          assert x != t[0];
          assert x in s;
          var m :| 0 <= m < |t| && t[m] == x;
          assert t[1..][m - 1] == x;
        }
        if x in t[1..] {
          var k :| 0 <= k < |t[1..]| && t[1..][k] == x;
          assert t[k + 1] == x;
          LessIrreflexive(t[0].0);
          assert x != s[0];
          assert x in t;
          var m :| 0 <= m < |s| && s[m] == x;
          assert s[1..][m - 1] == x;
        }
      }
      StrictlySortedUnique(s[1..], t[1..]);
      assert s == [s[0]] + s[1..] && t == [t[0]] + t[1..];
    }
  }

  // ---------------------------------------------------------------------------
  // str(...) of the sorted items
  // ---------------------------------------------------------------------------

  predicate NeedsEscape(c: char) {
    c == '\'' || c == '\\'
  }

  /** The body of a single-quoted literal: `'` and `\` get a backslash. */
  function Escape(s: string): string {
    if s == [] then []
    else (if NeedsEscape(s[0]) then ['\\', s[0]] else [s[0]]) + Escape(s[1..])
  }

  // Each rendering below is written "followed by `rest`", so that reading a
  // rendering back never has to re-associate a concatenation.

  /** `'…'` followed by `rest`. */
  function QuotedThen(s: string, rest: string): string {
    "'" + (Escape(s) + ("'" + rest))
  }

  /** `('name', 'value')` followed by `rest`. */
  function RenderArgumentThen(a: Argument, rest: string): string {
    "(" + QuotedThen(a.0, ", " + QuotedThen(a.1, ")" + rest))
  }

  /** The pairs separated by `", "`, followed by `rest`. */
  function RenderItemsThen(args: seq<Argument>, rest: string): string {
    if args == [] then rest
    else RenderArgumentThen(args[0], if |args| == 1 then rest else ", " + RenderItemsThen(args[1..], rest))
  }

  /** `str(sorted(arguments.items())) if arguments else ""`. */
  function ArgsString(args: seq<Argument>): string {
    if args == [] then "" else "[" + RenderItemsThen(SortArgs(args), "]")
  }

  /** `f"{tool_name}:{args_str}"`. */
  function MakeKey(tool: string, args: seq<Argument>): (key: string)
    ensures StartsWith(key, tool + ":")
  {
    assert (tool + ":" + ArgsString(args))[..|tool + ":"|] == tool + ":";
    tool + ":" + ArgsString(args)
  }

  /** The tool part of a key: everything before its first colon (`key.split(":")[0]`). */
  function ToolPart(key: string): (tool: string)
    ensures StartsWith(key, tool) && ':' !in tool
  {
    if key == [] || key[0] == ':' then ""
    else
      assert key == [key[0]] + key[1..];
      [key[0]] + ToolPart(key[1..])
  }

  /** `ToolPart` is the first field of `key.split(":")`. */
  lemma {:induction false} ToolPartIsFirstField(key: string)
    ensures ToolPart(key) == Split(key, ':')[0]
  {
    if key != [] && key[0] != ':' {
      ToolPartIsFirstField(key[1..]);
    }
  }

  // ---------------------------------------------------------------------------
  // The rendering can be read back unambiguously.
  // ---------------------------------------------------------------------------

  lemma StripPrefix(a: string, x: string, y: string)
    requires a + x == a + y
    ensures x == y
  {
    assert x == (a + x)[|a|..];
    assert y == (a + y)[|a|..];
  }

  /** An escaped string is delimited by the first unescaped quote that follows it. */
  lemma EscapeHead(s: string)
    requires s != []
    ensures Escape(s)[0] != '\''
  {
  }

  lemma {:induction false} EscapeUnique(s: string, t: string, x: string, y: string)
    requires Escape(s) + ("'" + x) == Escape(t) + ("'" + y)
    ensures s == t && x == y
    decreases |s|
  {
    var l := Escape(s) + ("'" + x);
    var r := Escape(t) + ("'" + y);
    if s == [] {
      assert l == "'" + x && l[0] == '\'';
    } else {
      EscapeHead(s);
      assert l[0] == Escape(s)[0];
    }
    if t == [] {
      assert r == "'" + y && r[0] == '\'';
    } else {
      EscapeHead(t);
      assert r[0] == Escape(t)[0];
    }
    if s == [] && t == [] {
      StripPrefix("'", x, y);
    } else if s != [] && t != [] {
      var hs := if NeedsEscape(s[0]) then ['\\', s[0]] else [s[0]];
      var ht := if NeedsEscape(t[0]) then ['\\', t[0]] else [t[0]];
      assert l == hs + (Escape(s[1..]) + ("'" + x));
      assert r == ht + (Escape(t[1..]) + ("'" + y));
      assert l[0] == hs[0];
      assert r[0] == ht[0];
      assert NeedsEscape(s[0]) <==> NeedsEscape(t[0]);
      if NeedsEscape(s[0]) {
        assert l[1] == hs[1] && r[1] == ht[1];
      }
      assert hs == ht;
      StripPrefix(hs, Escape(s[1..]) + ("'" + x), Escape(t[1..]) + ("'" + y));
      EscapeUnique(s[1..], t[1..], x, y);
      assert s == [s[0]] + s[1..] && t == [t[0]] + t[1..];
    }
  }

  lemma QuotedThenUnique(s: string, t: string, x: string, y: string)
    requires QuotedThen(s, x) == QuotedThen(t, y)
    ensures s == t && x == y
  {
    StripPrefix("'", Escape(s) + ("'" + x), Escape(t) + ("'" + y));
    EscapeUnique(s, t, x, y);
  }

  /** A rendered pair is a code: what follows it is determined. */
  lemma RenderArgumentUnique(a: Argument, b: Argument, x: string, y: string)
    requires RenderArgumentThen(a, x) == RenderArgumentThen(b, y)
    ensures a == b && x == y
  {
    StripPrefix("(", QuotedThen(a.0, ", " + QuotedThen(a.1, ")" + x)),
                     QuotedThen(b.0, ", " + QuotedThen(b.1, ")" + y)));
    QuotedThenUnique(a.0, b.0, ", " + QuotedThen(a.1, ")" + x), ", " + QuotedThen(b.1, ")" + y));
    StripPrefix(", ", QuotedThen(a.1, ")" + x), QuotedThen(b.1, ")" + y));
    QuotedThenUnique(a.1, b.1, ")" + x, ")" + y);
    StripPrefix(")", x, y);
  }

  /** The rendered item list, closed by `]`, determines the items. */
  lemma RenderItemsHead(s: seq<Argument>)
    ensures RenderItemsThen(s, "]")[0] == if s == [] then ']' else '('
  {
  }

  /** What follows the first pair of a non-empty rendered item list. */
  function ItemsTail(s: seq<Argument>): string
    requires s != []
  {
    if |s| == 1 then "]" else ", " + RenderItemsThen(s[1..], "]")
  }

  /** The rest after the first pair starts with `]` for the last pair and `,` otherwise. */
  lemma ItemsTailHead(s: seq<Argument>)
    requires s != []
    ensures RenderItemsThen(s, "]") == RenderArgumentThen(s[0], ItemsTail(s))
    ensures ItemsTail(s)[0] == if |s| == 1 then ']' else ','
  {
  }

  /** Equal rests after the first pair end the lists together, or render equal remainders. */
  lemma ItemsTailUnique(s: seq<Argument>, t: seq<Argument>)
    requires s != [] && t != [] && ItemsTail(s) == ItemsTail(t)
    ensures (|s| == 1) == (|t| == 1)
    ensures |s| > 1 ==> RenderItemsThen(s[1..], "]") == RenderItemsThen(t[1..], "]")
  {
    ItemsTailHead(s);
    ItemsTailHead(t);
    if |s| > 1 && |t| > 1 {
      StripPrefix(", ", RenderItemsThen(s[1..], "]"), RenderItemsThen(t[1..], "]"));
    }
  }

  /** Equal non-empty renderings agree on the first pair and on what follows it. */
  lemma RenderItemsFirst(s: seq<Argument>, t: seq<Argument>)
    requires s != [] || t != []
    requires RenderItemsThen(s, "]") == RenderItemsThen(t, "]")
    ensures s != [] && t != [] && s[0] == t[0] && (|s| == 1) == (|t| == 1)
    ensures |s| > 1 ==> RenderItemsThen(s[1..], "]") == RenderItemsThen(t[1..], "]")
  {
    RenderItemsHead(s);
    RenderItemsHead(t);
    ItemsTailHead(s);
    ItemsTailHead(t);
    RenderArgumentUnique(s[0], t[0], ItemsTail(s), ItemsTail(t));
    ItemsTailUnique(s, t);
  }

  /** Lists with equal heads and equal tails are equal. */
  lemma ConsEqual(s: seq<Argument>, t: seq<Argument>)
    requires s != [] && t != [] && s[0] == t[0] && s[1..] == t[1..]
    ensures s == t
  {
    assert s == [s[0]] + s[1..] && t == [t[0]] + t[1..];
  }

  lemma {:induction false} RenderItemsUnique(s: seq<Argument>, t: seq<Argument>)
    requires RenderItemsThen(s, "]") == RenderItemsThen(t, "]")
    ensures s == t
    decreases |s|
  {
    if s != [] || t != [] {
      RenderItemsFirst(s, t);
      if |s| > 1 {
        RenderItemsUnique(s[1..], t[1..]);
      }
      ConsEqual(s, t);
    }
  }

  /** Equal argument strings come from argument lists with equal sorted orders. */
  lemma ArgsStringUnique(a1: seq<Argument>, a2: seq<Argument>)
    requires ArgsString(a1) == ArgsString(a2)
    ensures SortArgs(a1) == SortArgs(a2)
  {
    assert |ArgsString(a1)| == 0 <==> a1 == [];
    assert |ArgsString(a2)| == 0 <==> a2 == [];
    if a1 != [] && a2 != [] {
      StripPrefix("[", RenderItemsThen(SortArgs(a1), "]"), RenderItemsThen(SortArgs(a2), "]"));
      RenderItemsUnique(SortArgs(a1), SortArgs(a2));
    }
  }

  // ---------------------------------------------------------------------------
  // Properties of keys
  // ---------------------------------------------------------------------------

  /** A colon-free name followed by a colon starts `tool + ":" + rest` only when it is `tool`. */
  lemma ColonPrefix(tool: string, rest: string, name: string)
    requires ':' !in tool && ':' !in name
    ensures StartsWith(tool + ":" + rest, name + ":") <==> tool == name
  {
    var key := tool + ":" + rest;
    assert key[|tool|] == ':';
    assert key[..|tool|] == tool;
    assert forall i :: 0 <= i < |tool| ==> key[i] == tool[i];
    if StartsWith(key, name + ":") {
      assert key[|name|] == ':';
      assert key[..|name|] == name;
      assert forall i :: 0 <= i < |name| ==> key[i] == name[i];
      assert |name| == |tool|;
    }
  }

  /** For a colon-free tool name, a key starts with `name + ":"` exactly when it is that tool's. */
  lemma KeyPrefix(tool: string, args: seq<Argument>, name: string)
    requires ':' !in tool && ':' !in name
    ensures StartsWith(MakeKey(tool, args), name + ":") <==> tool == name
  {
    ColonPrefix(tool, ArgsString(args), name);
  }

  /** The tool part of `tool + ":" + rest` for a colon-free tool is `tool`. */
  lemma {:induction false} ToolPartBeforeColon(tool: string, rest: string)
    requires ':' !in tool
    ensures ToolPart(tool + ":" + rest) == tool
    decreases |tool|
  {
    var key := tool + ":" + rest;
    if tool == [] {
      assert key[0] == ':';
    } else {
      assert key[0] == tool[0] && key[1..] == tool[1..] + ":" + rest;
      ToolPartBeforeColon(tool[1..], rest);
      assert tool == [tool[0]] + tool[1..];
    }
  }

  /** The tool part of a key built from a colon-free tool name is that name. */
  lemma ToolPartOfKey(tool: string, args: seq<Argument>)
    requires ':' !in tool
    ensures ToolPart(MakeKey(tool, args)) == tool
  {
    ToolPartBeforeColon(tool, ArgsString(args));
  }

  /** Keys of colon-free tool names collide exactly when the tool names are equal
      and the two dictionaries hold the same (name, value) pairs, whatever their
      insertion order. */
  lemma KeyCollision(t1: string, a1: seq<Argument>, t2: string, a2: seq<Argument>)
    requires ':' !in t1 && ':' !in t2
    requires DistinctNames(a1) && DistinctNames(a2)
    ensures MakeKey(t1, a1) == MakeKey(t2, a2) <==> t1 == t2 && (forall x :: x in a1 <==> x in a2)
  {
    if MakeKey(t1, a1) == MakeKey(t2, a2) {
      ToolPartOfKey(t1, a1);
      ToolPartOfKey(t2, a2);
      StripPrefix(t1 + ":", ArgsString(a1), ArgsString(a2));
      ArgsStringUnique(a1, a2);
      forall x
        ensures x in a1 <==> x in a2
      {
        assert x in a1 <==> x in multiset(SortArgs(a1));
        assert x in a2 <==> x in multiset(SortArgs(a2));
      }
    }
    if t1 == t2 && (forall x :: x in a1 <==> x in a2) {
      SortArgsStrictlySorted(a1);
      SortArgsStrictlySorted(a2);
      forall x
        ensures x in SortArgs(a1) <==> x in SortArgs(a2)
      {
        assert x in a1 <==> x in multiset(SortArgs(a1));
        assert x in a2 <==> x in multiset(SortArgs(a2));
      }
      StrictlySortedUnique(SortArgs(a1), SortArgs(a2));
    }
  }

  /** Changing the value of one argument changes the key. */
  lemma ChangedValueChangesKey(tool: string, args: seq<Argument>, i: nat, v: string)
    requires ':' !in tool && DistinctNames(args)
    requires i < |args| && args[i].1 != v
    ensures MakeKey(tool, args) != MakeKey(tool, args[i := (args[i].0, v)])
  {
    var changed := args[i := (args[i].0, v)];
    assert forall k :: 0 <= k < |changed| ==> changed[k].0 == args[k].0;
    assert DistinctNames(changed);
    forall k | 0 <= k < |changed|
      ensures changed[k] != args[i]
    {
      if k != i {
        assert changed[k] == args[k];
      }
    }
    assert args[i] in args && args[i] !in changed;
    KeyCollision(tool, args, tool, changed);
  }

  /** An empty dictionary gives the key `tool + ":"`. */
  lemma EmptyArgsKey(tool: string)
    ensures MakeKey(tool, []) == tool + ":"
  {
  }
}
