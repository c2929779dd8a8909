/**
 * The tool registry: tools by name in registration order, a category index,
 * aliases, a set of disabled tools and registration/execution counters.
 */
module ToolRegistry {
  import opened Outcomes
  import opened Seqs
  import opened Text
  import opened OrderedMaps

  datatype ToolCategory = Search | Llm | System | Optimization | DataProcessing | Communication

  datatype ToolStatus = Ready | Busy | Error | Unavailable

  /** What the registry reads of a tool; the execute method itself is not part of this model. */
  datatype Tool = Tool(name: string, description: string, category: ToolCategory, status: ToolStatus)

  /** `_validate_tool`: a tool needs a non-empty name and a non-empty description. */
  predicate ValidTool(t: Tool)
  {
    t.name != "" && t.description != ""
  }

  // ---------------------------------------------------------------------
  // The category index
  // ---------------------------------------------------------------------

  /** Every listed name is registered under that category, once, and no category list is empty. */
  predicate CategoriesSound(tools: map<string, Tool>, cats: map<ToolCategory, seq<string>>)
  {
    forall c :: c in cats ==>
      |cats[c]| > 0 && Distinct(cats[c]) && forall n :: n in cats[c] ==> n in tools && tools[n].category == c
  }

  /** Every registered tool is listed under its category. */
  predicate CategoriesComplete(tools: map<string, Tool>, cats: map<ToolCategory, seq<string>>)
  {
    forall n :: n in tools ==> tools[n].category in cats && n in cats[tools[n].category]
  }

  /** Lines 325-329 of the registration: the name appended to its category's list unless already there. */
  function Indexed(cats: map<ToolCategory, seq<string>>, name: string, c: ToolCategory): (r: map<ToolCategory, seq<string>>)
    ensures r.Keys == cats.Keys + {c}
    ensures c in r && name in r[c]
    ensures forall d :: d in cats && d != c ==> r[d] == cats[d]
  {
    var current := if c in cats then cats[c] else [];
    if name in current then cats[c := current] else cats[c := current + [name]]
  }

  /** The unregistration's index step: the name taken out of its category's list, the category dropped when empty. */
  function Unindexed(cats: map<ToolCategory, seq<string>>, name: string, c: ToolCategory): (r: map<ToolCategory, seq<string>>)
    ensures r.Keys <= cats.Keys
    ensures forall d :: d in cats && d != c ==> d in r && r[d] == cats[d]
    ensures c in r ==> c in cats && r[c] == Without(cats[c], name) && |r[c]| > 0
  {
    if c !in cats then cats
    else
      var rest := Without(cats[c], name);
      if |rest| == 0 then cats - {c} else cats[c := rest]
  }

  /** The index update registration needs: an overwritten tool that changes category leaves its previous list. */
  function Reindexed(cats: map<ToolCategory, seq<string>>, name: string, previous: Option<Tool>, c: ToolCategory)
    : map<ToolCategory, seq<string>>
  {
    if previous.Some? && previous.value.category != c then Indexed(Unindexed(cats, name, previous.value.category), name, c)
    else Indexed(cats, name, c)
  }

  lemma DistinctAppend(xs: seq<string>, x: string)
    requires Distinct(xs) && x !in xs
    ensures Distinct(xs + [x])
  {
    forall i, j | 0 <= i < j < |xs| + 1 ensures (xs + [x])[i] != (xs + [x])[j] {
      if j == |xs| {
        assert xs[i] in xs;
      }
    }
  }

  /** Indexing a tool whose name is new keeps the index sound and complete. */
  lemma IndexedNewSound(tools: map<string, Tool>, cats: map<ToolCategory, seq<string>>, t: Tool)
    requires CategoriesSound(tools, cats) && CategoriesComplete(tools, cats) && t.name !in tools
    ensures CategoriesSound(tools[t.name := t], Indexed(cats, t.name, t.category))
    ensures CategoriesComplete(tools[t.name := t], Indexed(cats, t.name, t.category))
  {
    var c := t.category;
    var current := if c in cats then cats[c] else [];
    assert t.name !in current;
    DistinctAppend(current, t.name);
  }

  /** Dropping a tool and every alias to it keeps the tools named and the aliases sound. */
  lemma RemovedAliasesSound(tools: map<string, Tool>, aliases: map<string, string>, name: string)
    requires ToolsNamed(tools) && AliasesSound(tools, aliases)
    ensures ToolsNamed(tools - {name}) && AliasesSound(tools - {name}, WithoutAliasesTo(aliases, name))
  {
  }

  /** Taking a tool out of the index leaves it sound and complete for the other tools, and the name in no list. */
  lemma UnindexedSound(tools: map<string, Tool>, cats: map<ToolCategory, seq<string>>, name: string)
    requires CategoriesSound(tools, cats) && CategoriesComplete(tools, cats) && name in tools
    ensures var r := Unindexed(cats, name, tools[name].category);
            CategoriesSound(tools - {name}, r) && CategoriesComplete(tools - {name}, r)
            && forall c :: c in r ==> name !in r[c]
  {
    var c0 := tools[name].category;
    WithoutDistinct(cats[c0], name);
  }

  /** Registering (or overwriting) a valid tool keeps the index sound and complete. */
  lemma ReindexedSound(tools: map<string, Tool>, cats: map<ToolCategory, seq<string>>, t: Tool)
    requires CategoriesSound(tools, cats) && CategoriesComplete(tools, cats)
    ensures var previous := if t.name in tools then Some(tools[t.name]) else None;
            var r := Reindexed(cats, t.name, previous, t.category);
            CategoriesSound(tools[t.name := t], r) && CategoriesComplete(tools[t.name := t], r)
  {
    if t.name !in tools {
      IndexedNewSound(tools, cats, t);
    } else if tools[t.name].category != t.category {
      ReindexedMovedSound(tools, cats, t);
    } else {
      assert Indexed(cats, t.name, t.category) == cats;
    }
  }

  /** Overwriting a tool with one of another category moves its name between the lists. */
  lemma ReindexedMovedSound(tools: map<string, Tool>, cats: map<ToolCategory, seq<string>>, t: Tool)
    requires CategoriesSound(tools, cats) && CategoriesComplete(tools, cats)
    requires t.name in tools && tools[t.name].category != t.category
    ensures var r := Indexed(Unindexed(cats, t.name, tools[t.name].category), t.name, t.category);
            CategoriesSound(tools[t.name := t], r) && CategoriesComplete(tools[t.name := t], r)
  {
    var rest := tools - {t.name};
    UnindexedSound(tools, cats, t.name);
    IndexedNewSound(rest, Unindexed(cats, t.name, tools[t.name].category), t);
    assert rest[t.name := t] == tools[t.name := t];
  }

  // ---------------------------------------------------------------------
  // Aliases
  // ---------------------------------------------------------------------

  /** Each tool is stored under its own name. */
  predicate ToolsNamed(tools: map<string, Tool>)
  {
    forall n :: n in tools ==> tools[n].name == n
  }

  /** Every alias names a registered tool. */
  predicate AliasesSound(tools: map<string, Tool>, aliases: map<string, string>)
  {
    forall a :: a in aliases ==> aliases[a] in tools
  }

  /** The alias loop of registration: each alias not yet taken is bound to `name`, the others are skipped. */
  function WithAliases(aliases: map<string, string>, list: seq<string>, name: string): (r: map<string, string>)
  {
    if |list| == 0 then aliases
    else
      var prev := WithAliases(aliases, list[..|list| - 1], name);
      var a := list[|list| - 1];
      if a in prev then prev else prev[a := name]
  }

  /** An existing alias is never rebound; the new aliases are exactly the listed ones not taken before, all bound to `name`. */
  lemma {:induction false} WithAliasesKeeps(aliases: map<string, string>, list: seq<string>, name: string)
    ensures var r := WithAliases(aliases, list, name);
            && (forall a :: a in r <==> a in aliases || a in list)
            && (forall a :: a in aliases ==> r[a] == aliases[a])
            && (forall a :: a in r && a !in aliases ==> r[a] == name)
  {
    if |list| > 0 {
      WithAliasesKeeps(aliases, list[..|list| - 1], name);
      assert list == list[..|list| - 1] + [list[|list| - 1]];
    }
  }

  /** The aliases left when the tool `name` goes away. */
  function WithoutAliasesTo(aliases: map<string, string>, name: string): (r: map<string, string>)
    ensures forall a :: a in r <==> a in aliases && aliases[a] != name
    ensures forall a :: a in r ==> r[a] == aliases[a]
  {
    map a | a in aliases && aliases[a] != name :: aliases[a]
  }

  /** The alias loop of `register_tool`. */
  method AliasesAdded(aliases: map<string, string>, list: seq<string>, name: string) returns (r: map<string, string>)
    ensures r == WithAliases(aliases, list, name)
  {
    r := aliases;
    var i := 0;
    while i < |list|
      invariant 0 <= i <= |list|
      invariant r == WithAliases(aliases, list[..i], name)
    {
      assert list[..i + 1][..i] == list[..i];
      if list[i] !in r {
        r := r[list[i] := name];
      }
      i := i + 1;
    }
    assert list[..|list|] == list;
  }

  // ---------------------------------------------------------------------
  // Name resolution and views
  // ---------------------------------------------------------------------

  /** `_resolve_tool_name`: a registered name first, then an alias. */
  function Resolve(tools: map<string, Tool>, aliases: map<string, string>, name: string): (r: Option<string>)
    ensures name in tools ==> r == Some(name)
    ensures name !in tools && name in aliases ==> r == Some(aliases[name])
    ensures name !in tools && name !in aliases ==> r == None
  {
    if name in tools then Some(name) else if name in aliases then Some(aliases[name]) else None
  }

  /** The names of `keys` not in `disabled`, in order. */
  function Enabled(keys: seq<string>, disabled: set<string>): (r: seq<string>)
    ensures |r| <= |keys|
    ensures forall n :: n in r <==> n in keys && n !in disabled
  {
    if |keys| == 0 then [] else
      var rest := Enabled(keys[..|keys| - 1], disabled);
      var k := keys[|keys| - 1];
      if k in disabled then rest else rest + [k]
  }

  /** Without repeated names, the enabled names are all names less the disabled ones among them. */
  lemma {:induction false} EnabledCount(keys: seq<string>, disabled: set<string>)
    requires Distinct(keys) && disabled <= (set k | k in keys)
    ensures |Enabled(keys, disabled)| == |keys| - |disabled|
  {
    if |keys| > 0 {
      var init := keys[..|keys| - 1];
      var k := keys[|keys| - 1];
      assert Distinct(init);
      assert k !in init;
      var d := disabled - {k};
      assert d <= (set x | x in init);
      EnabledCount(init, d);
      assert Enabled(init, disabled) == Enabled(init, d) by { EnabledSame(init, disabled, d); }
    }
  }

  lemma {:induction false} EnabledSame(keys: seq<string>, d1: set<string>, d2: set<string>)
    requires forall k :: k in keys ==> (k in d1 <==> k in d2)
    ensures Enabled(keys, d1) == Enabled(keys, d2)
  {
    if |keys| > 0 {
      EnabledSame(keys[..|keys| - 1], d1, d2);
    }
  }

  /** How a tool's execute call ended; the call itself happens outside the registry. */
  datatype ExecOutcome = Succeeded | Failed | Raised

  /** `success_rate` of the registry statistics. */
  function RegistrySuccessRate(executions: nat, failed: nat): real
  {
    ((executions as int - failed as int) as real) / ((if executions >= 1 then executions else 1) as real)
  }

  /** Execution counters as `execute_tool` writes them: a raised exception counts as a failure but not as an execution. */
  function ExecutionCountsAsWritten(executions: nat, failed: nat, outcome: ExecOutcome): (nat, nat)
  {
    match outcome
    case Succeeded => (executions + 1, failed)
    case Failed => (executions + 1, failed + 1)
    case Raised => (executions, failed + 1)
  }

  /** One execution that raises drives the success rate of a fresh registry to -1. */
  lemma RaisedExecutionGivesNegativeRate()
    ensures var c := ExecutionCountsAsWritten(0, 0, Raised);
            RegistrySuccessRate(c.0, c.1) == -1.0
  {
  }

  /** Execution counters with every attempt counted as an execution. */
  function ExecutionCounts(executions: nat, failed: nat, outcome: ExecOutcome): (r: (nat, nat))
    ensures failed <= executions ==> r.1 <= r.0
    ensures r.0 == executions + 1
    ensures r.1 == if outcome == Succeeded then failed else failed + 1
  {
    match outcome
    case Succeeded => (executions + 1, failed)
    case Failed => (executions + 1, failed + 1)
    case Raised => (executions + 1, failed + 1)
  }

  /** With failures never outnumbering executions the success rate is a proportion. */
  lemma SuccessRateInUnit(executions: nat, failed: nat)
    requires failed <= executions
    ensures 0.0 <= RegistrySuccessRate(executions, failed) <= 1.0
    ensures executions > 0 && failed == 0 ==> RegistrySuccessRate(executions, failed) == 1.0
  {
    var n: nat := executions - failed;
    var d: nat := if executions >= 1 then executions else 1;
    RatioInUnit(n, d);
    assert RegistrySuccessRate(executions, failed) == (n as real) / (d as real);
  }

  /** The index step as `register_tool` performs it: the name is only ever added. */
  function RegisteredCategoriesAsWritten(cats: map<ToolCategory, seq<string>>, name: string, c: ToolCategory)
    : map<ToolCategory, seq<string>>
  {
    Indexed(cats, name, c)
  }

  /** Overwriting a tool with one of another category leaves its name under the previous category too. */
  lemma OverwriteLeavesStaleCategory()
    ensures var t1 := Tool("calc", "a calculator", Search, Ready);
            var t2 := Tool("calc", "a calculator", Llm, Ready);
            var cats1 := RegisteredCategoriesAsWritten(map[], "calc", Search);
            var cats2 := RegisteredCategoriesAsWritten(cats1, "calc", Llm);
            CategoriesSound(map["calc" := t1], cats1)
            && Search in cats2 && "calc" in cats2[Search]
            && !CategoriesSound(map["calc" := t2], cats2)
  {
    var t2 := Tool("calc", "a calculator", Llm, Ready);
    var cats1 := RegisteredCategoriesAsWritten(map[], "calc", Search);
    var cats2 := RegisteredCategoriesAsWritten(cats1, "calc", Llm);
    assert cats2[Search] == ["calc"];
    assert map["calc" := t2]["calc"].category != Search;
  }

  /** The tool table, the category index and the aliases agree. */
  predicate TablesOk(tools: ODict<Tool>, cats: map<ToolCategory, seq<string>>, aliases: map<string, string>)
  {
    && Valid(tools) && ToolsNamed(tools.m)
    && CategoriesSound(tools.m, cats) && CategoriesComplete(tools.m, cats)
    && AliasesSound(tools.m, aliases)
  }

  /** Registering a valid tool keeps the tables well formed, the index sound and complete, and every alias bound. */
  lemma InstallSound(tools: ODict<Tool>, cats: map<ToolCategory, seq<string>>, aliases: map<string, string>,
                     t: Tool, aliasList: seq<string>)
    requires TablesOk(tools, cats, aliases) && ValidTool(t)
    ensures TablesOk(Put(tools, t.name, t), Reindexed(cats, t.name, if t.name in tools.m then Some(tools.m[t.name]) else None, t.category),
                     WithAliases(aliases, aliasList, t.name))
  {
    ReindexedSound(tools.m, cats, t);
    WithAliasesKeeps(aliases, aliasList, t.name);
  }

  // ---------------------------------------------------------------------
  // The registry
  // ---------------------------------------------------------------------

  class Registry {
    var tools: ODict<Tool>
    var categories: map<ToolCategory, seq<string>>
    var aliases: map<string, string>
    var disabled: set<string>
    var totalRegistrations: nat
    var totalUnregistrations: nat
    var totalExecutions: nat
    var failedExecutions: nat

    ghost predicate Invariant()
      reads this
    {
      && TablesOk(tools, categories, aliases)
      && disabled <= tools.m.Keys
      && failedExecutions <= totalExecutions
    }

    constructor ()
      ensures Invariant()
      ensures tools == Empty() && categories == map[] && aliases == map[] && disabled == {}
      ensures totalRegistrations == 0 && totalUnregistrations == 0 && totalExecutions == 0 && failedExecutions == 0
    {
      tools, categories, aliases, disabled := Empty(), map[], map[], {};
      totalRegistrations, totalUnregistrations, totalExecutions, failedExecutions := 0, 0, 0, 0;
    }

    /**
     * `register_tool`: refused for a taken name without `overwrite` or an
     * invalid tool; otherwise the tool is stored, indexed, its free aliases
     * bound, and a new name counted.
     */
    method RegisterTool(t: Tool, aliasList: seq<string>, overwrite: bool) returns (ok: bool)
      requires Invariant()
      modifies `tools, `categories, `aliases, `totalRegistrations
      ensures Invariant()
      ensures ok <==> (t.name !in old(tools).m || overwrite) && ValidTool(t)
      ensures !ok ==> unchanged(this)
      ensures ok ==> tools == Put(old(tools), t.name, t)
      ensures ok ==> aliases == WithAliases(old(aliases), aliasList, t.name)
      ensures ok ==> categories == Reindexed(old(categories), t.name,
                                             if t.name in old(tools).m then Some(old(tools).m[t.name]) else None, t.category)
      ensures ok && t.name !in old(tools).m ==> totalRegistrations == old(totalRegistrations) + 1
      ensures !ok || t.name in old(tools).m ==> totalRegistrations == old(totalRegistrations)
    {
      if t.name in tools.m && !overwrite {
        return false;
      }
      if !ValidTool(t) {
        return false;
      }
      Install(t, aliasList);
      ok := true;
    }

    /** The registration proper, once the tool has been accepted. */
    method Install(t: Tool, aliasList: seq<string>)
      requires Invariant() && ValidTool(t)
      modifies `tools, `categories, `aliases, `totalRegistrations
      ensures Invariant()
      ensures tools == Put(old(tools), t.name, t)
      ensures aliases == WithAliases(old(aliases), aliasList, t.name)
      ensures categories == Reindexed(old(categories), t.name,
                                      if t.name in old(tools).m then Some(old(tools).m[t.name]) else None, t.category)
      ensures totalRegistrations == old(totalRegistrations) + (if t.name in old(tools).m then 0 else 1)
    {
      var previous := if t.name in tools.m then Some(tools.m[t.name]) else None;
      InstallSound(tools, categories, aliases, t, aliasList);
      categories := Reindexed(categories, t.name, previous, t.category);
      tools := Put(tools, t.name, t);
      aliases := AliasesAdded(aliases, aliasList, t.name);
      if previous.None? {
        totalRegistrations := totalRegistrations + 1;
      }
    }

    /**
     * `unregister_tool`: an unknown name or alias is refused; otherwise the
     * tool, its index entry, every alias to it and its disabled mark go away.
     */
    method UnregisterTool(name: string) returns (ok: bool)
      requires Invariant()
      modifies `tools, `categories, `aliases, `disabled, `totalUnregistrations
      ensures Invariant()
      ensures ok <==> Resolve(old(tools).m, old(aliases), name).Some?
      ensures !ok ==> unchanged(this)
      ensures ok ==> var target := Resolve(old(tools).m, old(aliases), name).value;
                     && tools == Remove(old(tools), target)
                     && categories == Unindexed(old(categories), target, old(tools).m[target].category)
                     && (forall c :: c in categories ==> target !in categories[c])
                     && aliases == WithoutAliasesTo(old(aliases), target)
                     && disabled == old(disabled) - {target}
                     && totalUnregistrations == old(totalUnregistrations) + 1
    {
      var target := Resolve(tools.m, aliases, name);
      if target.None? {
        return false;
      }
      DropTool(target.value);
      ok := true;
    }

    /** The removal `unregister_tool` does once the name has resolved to a registered tool. */
    method DropTool(n: string)
      requires Invariant() && n in tools.m
      modifies `tools, `categories, `aliases, `disabled, `totalUnregistrations
      ensures Invariant()
      ensures tools == Remove(old(tools), n)
      ensures categories == Unindexed(old(categories), n, old(tools).m[n].category)
      ensures forall c :: c in categories ==> n !in categories[c]
      ensures aliases == WithoutAliasesTo(old(aliases), n)
      ensures disabled == old(disabled) - {n}
      ensures totalUnregistrations == old(totalUnregistrations) + 1
    {
      UnindexedSound(tools.m, categories, n);
      RemovedAliasesSound(tools.m, aliases, n);
      categories := Unindexed(categories, n, tools.m[n].category);
      tools := Remove(tools, n);
      aliases := WithoutAliasesTo(aliases, n);
      disabled := disabled - {n};
      totalUnregistrations := totalUnregistrations + 1;
    }

    /** `has_tool`. */
    function HasTool(name: string): (r: bool)
      reads this
      ensures r <==> name in tools.m || name in aliases
    {
      Resolve(tools.m, aliases, name).Some?
    }

    /** `disable_tool`: unknown names are refused; otherwise the resolved name is disabled. */
    method DisableTool(name: string) returns (ok: bool)
      requires Invariant()
      modifies `disabled
      ensures Invariant()
      ensures ok <==> Resolve(tools.m, aliases, name).Some?
      ensures ok ==> disabled == old(disabled) + {Resolve(tools.m, aliases, name).value}
      ensures !ok ==> disabled == old(disabled)
    {
      var target := Resolve(tools.m, aliases, name);
      if target.None? {
        return false;
      }
      disabled := disabled + {target.value};
      ok := true;
    }

    /** `enable_tool`: unknown names are refused; otherwise the resolved name is enabled. */
    method EnableTool(name: string) returns (ok: bool)
      requires Invariant()
      modifies `disabled
      ensures Invariant()
      ensures ok <==> Resolve(tools.m, aliases, name).Some?
      ensures ok ==> disabled == old(disabled) - {Resolve(tools.m, aliases, name).value}
      ensures !ok ==> disabled == old(disabled)
    {
      var target := Resolve(tools.m, aliases, name);
      if target.None? {
        return false;
      }
      disabled := disabled - {target.value};
      ok := true;
    }

    /** `get_tool`: a disabled tool is hidden unless `enableIfDisabled`, which enables it. */
    method GetTool(name: string, enableIfDisabled: bool) returns (r: Option<Tool>)
      requires Invariant()
      modifies `disabled
      ensures Invariant()
      ensures var target := Resolve(tools.m, aliases, name);
              && (target.None? ==> r == None && disabled == old(disabled))
              && (target.Some? && target.value in old(disabled) && !enableIfDisabled ==> r == None && disabled == old(disabled))
              && (target.Some? && (target.value !in old(disabled) || enableIfDisabled) ==>
                    r == Some(tools.m[target.value]) && disabled == old(disabled) - {target.value})
    {
      var target := Resolve(tools.m, aliases, name);
      if target.None? {
        return None;
      }
      if target.value in disabled {
        if enableIfDisabled {
          var _ := EnableTool(target.value);
        } else {
          return None;
        }
      }
      r := Some(tools.m[target.value]);
    }

    /**
     * `execute_tool`: a missing or disabled tool gives nothing; otherwise the
     * attempt is counted with its outcome (a raised exception counted as an
     * execution that failed).
     */
    method ExecuteTool(name: string, outcome: ExecOutcome) returns (r: Option<bool>)
      requires Invariant()
      modifies `totalExecutions, `failedExecutions
      ensures Invariant()
      ensures var target := Resolve(tools.m, aliases, name);
              (target.None? || target.value in disabled) <==> r == None
      ensures r == None ==> totalExecutions == old(totalExecutions) && failedExecutions == old(failedExecutions)
      ensures r != None ==>
        && r == Some(outcome == Succeeded)
        && (totalExecutions, failedExecutions) == ExecutionCounts(old(totalExecutions), old(failedExecutions), outcome)
    {
      var target := Resolve(tools.m, aliases, name);
      if target.None? || target.value in disabled {
        return None;
      }
      totalExecutions, failedExecutions := ExecutionCounts(totalExecutions, failedExecutions, outcome).0,
                                           ExecutionCounts(totalExecutions, failedExecutions, outcome).1;
      r := Some(outcome == Succeeded);
    }

    /** `list_all_tools`: all names in registration order, or only the enabled ones. */
    function ListAllTools(includeDisabled: bool): (r: seq<string>)
      reads this
      ensures includeDisabled ==> r == tools.keys
      ensures forall n :: n in r <==> n in tools.keys && (includeDisabled || n !in disabled)
    {
      if includeDisabled then tools.keys else Enabled(tools.keys, disabled)
    }

    /** `__len__`: the enabled tools, which number the tools less the disabled ones. */
    function Len(): (n: nat)
      reads this
      requires Invariant()
      ensures n == Size(tools) - |disabled|
    {
      assert disabled <= (set k | k in tools.keys);
      EnabledCount(tools.keys, disabled);
      |Enabled(tools.keys, disabled)|
    }

    /** `__contains__`: a known name or alias whose tool is enabled. */
    function IsAvailable(name: string): (r: bool)
      reads this
      ensures r <==> Resolve(tools.m, aliases, name).Some? && Resolve(tools.m, aliases, name).value !in disabled
    {
      var target := Resolve(tools.m, aliases, name);
      target.Some? && target.value !in disabled
    }

    /** `get_tools_by_category`: the enabled tools of a category, in index order. */
    function ToolsByCategory(c: ToolCategory): (r: seq<Tool>)
      reads this
      requires Invariant()
      ensures forall t :: t in r ==> t.category == c && t.name in tools.m && tools.m[t.name] == t && t.name !in disabled
    {
      if c !in categories then []
      else
        var names := Enabled(categories[c], disabled);
        var store := tools.m;
        seq(|names|, i requires 0 <= i < |names| => store[names[i]])
    }

    /** `search_tools`: the enabled tools, optionally of one category, whose name or description contains the query, ignoring case. */
    method SearchTools(query: string, category: Option<ToolCategory>) returns (r: seq<Tool>)
      requires Valid(tools)
      ensures r == Matching(tools.keys, tools.m, disabled, Lower(query), category)
    {
      var q := Lower(query);
      r := [];
      var i := 0;
      while i < |tools.keys|
        invariant 0 <= i <= |tools.keys|
        invariant r == Matching(tools.keys[..i], tools.m, disabled, q, category)
      {
        var name := tools.keys[i];
        assert tools.keys[..i + 1][..i] == tools.keys[..i];
        var t := tools.m[name];
        if name !in disabled && (category.None? || t.category == category.value)
           && (Contains(Lower(name), q) || Contains(Lower(t.description), q)) {
          r := r + [t];
        }
        i := i + 1;
      }
      assert tools.keys[..|tools.keys|] == tools.keys;
    }
  }

  /** The tools of `keys` that `search_tools` keeps for the lower-cased query. */
  function Matching(keys: seq<string>, store: map<string, Tool>, disabled: set<string>, q: string,
                    category: Option<ToolCategory>): (r: seq<Tool>)
    requires forall k :: k in keys ==> k in store
    ensures forall t :: t in r ==> exists k :: k in keys && store[k] == t && k !in disabled
                                    && (category.None? || t.category == category.value)
                                    && (Contains(Lower(k), q) || Contains(Lower(t.description), q))
  {
    if |keys| == 0 then []
    else
      var rest := Matching(keys[..|keys| - 1], store, disabled, q, category);
      var k := keys[|keys| - 1];
      var t := store[k];
      if k !in disabled && (category.None? || t.category == category.value)
         && (Contains(Lower(k), q) || Contains(Lower(t.description), q))
      then rest + [t] else rest
  }
}
