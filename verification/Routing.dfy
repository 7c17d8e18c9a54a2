/** `gateway/upstream.py`, `gateway/registry.py` and the gate checks of `gateway/server.py`:
    aggregated tool names, the scope they are checked against, and where a call goes. */
module Routing {
  import opened Records

  const SEPARATOR := "__"

  function QualifiedName(namespace: string, tool: string): string {
    namespace + SEPARATOR + tool
  }

  /** Where `split("__", 1)` cuts: the first double underscore, or the end. */
  function FirstSeparator(s: string): (n: nat)
    ensures n <= |s|
  {
    if SEPARATOR <= s || s == "" then 0 else 1 + FirstSeparator(s[1..])
  }

  /** `tool_namespace` */
  function ToolNamespace(name: string): string {
    name[..FirstSeparator(name)]
  }

  /** No double underscore inside and no underscore at the end. */
  predicate Clean(namespace: string) {
    && (forall i :: 0 <= i < |namespace| - 1 ==> !(namespace[i] == '_' && namespace[i + 1] == '_'))
    && (namespace != "" ==> namespace[|namespace| - 1] != '_')
  }

  predicate SeparatorAt(s: string, i: nat) {
    i + 1 < |s| && s[i] == '_' && s[i + 1] == '_'
  }

  lemma {:induction false} FirstSeparatorIsFirst(s: string)
    ensures forall i :: 0 <= i < FirstSeparator(s) ==> !SeparatorAt(s, i)
    ensures FirstSeparator(s) < |s| ==> SeparatorAt(s, FirstSeparator(s))
  {
    if !(SEPARATOR <= s || s == "") {
      FirstSeparatorIsFirst(s[1..]);
      assert forall i :: 0 < i ==> (SeparatorAt(s, i) <==> SeparatorAt(s[1..], i - 1));
      assert !SeparatorAt(s, 0);
    }
  }

  /** The namespace read back from an aggregated name is the one it was built from exactly
      when that namespace is clean, whatever the tool is called. */
  lemma {:induction false} NamespaceReadsBack(namespace: string, tool: string)
    ensures ToolNamespace(QualifiedName(namespace, tool)) == namespace <==> Clean(namespace)
  {
    var name := QualifiedName(namespace, tool);
    var n := FirstSeparator(name);
    FirstSeparatorIsFirst(name);
    assert SeparatorAt(name, |namespace|);
    assert n <= |namespace|;
    assert name[..|namespace|] == namespace;
    if n < |namespace| {
      assert SeparatorAt(name, n);
      assert !Clean(namespace) by {
        if n + 1 < |namespace| { assert namespace[n] == '_' && namespace[n + 1] ==
          '_'; } else { assert namespace[|namespace| - 1] == '_'; }
      }
    } else {
      forall i | 0 <= i < |namespace| - 1 ensures !(namespace[i] == '_' && namespace[i + 1] == '_') {
        assert !SeparatorAt(name, i);
      }
      if namespace != "" { assert !SeparatorAt(name, |namespace| - 1); }
    }
  }

  lemma {:induction false} NamesAreDistinct(ns1: string, tool1: string, ns2: string, tool2: string)
    requires Clean(ns1) && Clean(ns2) && QualifiedName(ns1, tool1) == QualifiedName(ns2, tool2)
    ensures ns1 == ns2 && tool1 == tool2
  {
    NamespaceReadsBack(ns1, tool1);
    NamespaceReadsBack(ns2, tool2);
    assert QualifiedName(ns1, tool1)[|ns1| + 2..] == tool1;
    assert QualifiedName(ns2, tool2)[|ns2| + 2..] == tool2;
  }

  // ---- The pool ---------------------------------------------------------------

  datatype NamespacedTool = NamespacedTool(name: string, namespace: string, upstreamName: string)

  /** One upstream server: its namespace and the tools it lists. */
  datatype Upstream = Upstream(namespace: string, tools: seq<string>)

  type ToolMap = map<string, NamespacedTool>

  function AddTools(tools: ToolMap, namespace: string, listed: seq<string>): ToolMap
    decreases |listed|
  {
    if listed == [] then tools
    else
      var name := QualifiedName(namespace, listed[0]);
      AddTools(tools[name := NamespacedTool(name, namespace, listed[0])], namespace, listed[1..])
  }

  /** What `connect` leaves in `_tools`: a later tool replaces an earlier one of the same name. */
  function Aggregate(tools: ToolMap, upstreams: seq<Upstream>): ToolMap
    decreases |upstreams|
  {
    if upstreams == [] then tools
    else Aggregate(AddTools(tools, upstreams[0].namespace, upstreams[0].tools), upstreams[1..])
  }

  function Namespaces(upstreams: seq<Upstream>): set<string> {
    set u | u in upstreams :: u.namespace
  }

  class UpstreamPool {
    var sessions: set<string>
    var tools: ToolMap

    constructor ()
      ensures sessions == {} && tools == map[]
    {
      sessions, tools := {}, map[];
    }

    /** `connect`, every connection succeeding. */
    method Connect(upstreams: seq<Upstream>)
      modifies this
      ensures tools == Aggregate(old(tools), upstreams)
      ensures sessions == old(sessions) + Namespaces(upstreams)
    {
      for m := 0 to |upstreams|
        invariant Aggregate(old(tools), upstreams) == Aggregate(tools, upstreams[m..])
        invariant sessions == old(sessions) + Namespaces(upstreams[..m])
      {
        var upstream := upstreams[m];
        sessions := sessions + {upstream.namespace};
        assert upstreams[..m + 1] == upstreams[..m] + [upstream];
        assert Namespaces(upstreams[..m + 1]) == Namespaces(upstreams[..m]) + {upstream.namespace};
        ghost var start := tools;
        for n := 0 to |upstream.tools|
          invariant AddTools(start, upstream.namespace, upstream.tools) ==
            AddTools(tools, upstream.namespace, upstream.tools[n..])
          invariant sessions == old(sessions) + Namespaces(upstreams[..m + 1])
        {
          var name := QualifiedName(upstream.namespace, upstream.tools[n]);
          assert upstream.tools[n..][1..] == upstream.tools[n + 1..];
          tools := tools[name := NamespacedTool(name, upstream.namespace, upstream.tools[n])];
        }
        assert upstreams[m..][1..] == upstreams[m + 1..];
      }
      assert upstreams[..|upstreams|] == upstreams;
    }

    method Resolve(name: string) returns (entry: Option<NamespacedTool>)
      ensures entry == if name in tools then Some(tools[name]) else None
    {
      if name in tools {
        entry := Some(tools[name]);
      } else {
        entry := None;
      }
    }
  }

  /** Some upstream of that namespace lists the tool. */
  ghost predicate Offers(upstreams: seq<Upstream>, namespace: string, tool: string) {
    exists i :: 0 <= i < |upstreams| && upstreams[i].namespace == namespace && tool in upstreams[i].tools
  }

  /** Every entry is stored under its own qualified name. */
  ghost predicate Named(tools: ToolMap) {
    forall name :: name in tools ==>
      tools[name].name == name && name == QualifiedName(tools[name].namespace, tools[name].upstreamName)
  }

  lemma {:induction false} AddToolsIs(tools: ToolMap, namespace: string, listed: seq<string>)
    requires Named(tools)
    ensures Named(AddTools(tools, namespace, listed))
    ensures forall name :: name in AddTools(tools, namespace, listed) <==>
      name in tools || exists k :: 0 <= k < |listed| && name == QualifiedName(namespace, listed[k])
    decreases |listed|
  {
    if listed != [] {
      var first := QualifiedName(namespace, listed[0]);
      var next := tools[first := NamespacedTool(first, namespace, listed[0])];
      AddToolsIs(next, namespace, listed[1..]);
      forall name ensures name in AddTools(tools, namespace, listed) <==>
        name in tools || exists k :: 0 <= k < |listed| && name == QualifiedName(namespace, listed[k])
      {
        if k :| 0 <= k < |listed| && name == QualifiedName(namespace, listed[k]) {
          if k > 0 { assert listed[1..][k - 1] == listed[k]; }
        }
        if k :| 0 <= k < |listed[1..]| && name == QualifiedName(namespace, listed[1..][k]) {
          assert listed[k + 1] == listed[1..][k];
        }
      }
    }
  }

  /** The name is that of tool `k` of upstream `i`. */
  predicate IsNameOf(upstreams: seq<Upstream>, i: int, k: int, name: string) {
    && 0 <= i < |upstreams| && 0 <= k < |upstreams[i].tools|
    && name == QualifiedName(upstreams[i].namespace, upstreams[i].tools[k])
  }

  lemma {:induction false} NamesOfRest(upstreams: seq<Upstream>, name: string)
    requires upstreams != []
    ensures (exists i, k :: IsNameOf(upstreams, i, k, name)) <==>
      (exists k :: IsNameOf(upstreams, 0, k, name)) || exists i, k :: IsNameOf(upstreams[1..], i, k, name)
  {
    if i, k :| IsNameOf(upstreams, i, k, name) {
      if i > 0 { assert IsNameOf(upstreams[1..], i - 1, k, name); }
    }
    if i, k :| IsNameOf(upstreams[1..], i, k, name) {
      assert IsNameOf(upstreams, i + 1, k, name);
    }
  }

  lemma {:induction false} FirstNames(upstreams: seq<Upstream>, name: string)
    requires upstreams != []
    ensures var first := upstreams[0]; (exists k :: IsNameOf(upstreams, 0, k, name)) <==>
      exists k :: 0 <= k < |first.tools| && name == QualifiedName(first.namespace, first.tools[k])
  {
    if k :| 0 <= k < |upstreams[0].tools| && name == QualifiedName(upstreams[0].namespace, upstreams[0].tools[k]) {
      assert IsNameOf(upstreams, 0, k, name);
    }
  }

  lemma {:induction false} AggregateIs(tools: ToolMap, upstreams: seq<Upstream>)
    requires Named(tools)
    ensures Named(Aggregate(tools, upstreams))
    ensures forall name :: name in Aggregate(tools, upstreams) <==>
      name in tools || exists i, k :: IsNameOf(upstreams, i, k, name)
    decreases |upstreams|
  {
    if upstreams != [] {
      var next := AddTools(tools, upstreams[0].namespace, upstreams[0].tools);
      AddToolsIs(tools, upstreams[0].namespace, upstreams[0].tools);
      AggregateIs(next, upstreams[1..]);
      forall name ensures name in Aggregate(tools, upstreams) <==>
        name in tools || exists i, k :: IsNameOf(upstreams, i, k, name)
      {
        NamesOfRest(upstreams, name);
        FirstNames(upstreams, name);
      }
    }
  }

  ghost predicate CleanNamespaces(upstreams: seq<Upstream>) {
    forall i :: 0 <= i < |upstreams| ==> Clean(upstreams[i].namespace)
  }

  lemma {:induction false} AddedEntry(tools: ToolMap, namespace: string, listed: seq<string>, name: string)
    ensures name in AddTools(tools, namespace, listed) ==>
      var e := AddTools(tools, namespace, listed)[name];
      (name in tools && tools[name] == e) || (e.namespace == namespace && e.upstreamName in listed)
    decreases |listed|
  {
    if listed != [] {
      var first := QualifiedName(namespace, listed[0]);
      AddedEntry(tools[first := NamespacedTool(first, namespace, listed[0])], namespace, listed[1..], name);
    }
  }

  lemma {:induction false} EntriesAreOffered(tools: ToolMap, upstreams: seq<Upstream>, name: string)
    requires name in Aggregate(tools, upstreams) && Named(tools)
    ensures var e := Aggregate(tools, upstreams)[name];
      (name in tools && tools[name] == e) || Offers(upstreams, e.namespace, e.upstreamName)
    decreases |upstreams|
  {
    if upstreams != [] {
      var next := AddTools(tools, upstreams[0].namespace, upstreams[0].tools);
      AddToolsIs(tools, upstreams[0].namespace, upstreams[0].tools);
      EntriesAreOffered(next, upstreams[1..], name);
      AddedEntry(tools, upstreams[0].namespace, upstreams[0].tools, name);
      assert forall i :: 0 <= i < |upstreams[1..]| ==> upstreams[1..][i] == upstreams[i + 1];
    }
  }

  lemma {:induction false} OwnEntry(upstreams: seq<Upstream>, namespace: string, tool: string)
    requires CleanNamespaces(upstreams) && Clean(namespace)
    requires QualifiedName(namespace, tool) in Aggregate(map[], upstreams)
    ensures Aggregate(map[], upstreams)[QualifiedName(namespace, tool)] ==
      NamespacedTool(QualifiedName(namespace, tool), namespace, tool)
  {
    var name := QualifiedName(namespace, tool);
    var e := Aggregate(map[], upstreams)[name];
    AggregateIs(map[], upstreams);
    EntriesAreOffered(map[], upstreams, name);
    assert Clean(e.namespace);
    NamesAreDistinct(namespace, tool, e.namespace, e.upstreamName);
  }

  /** With clean namespaces nothing is shadowed: every offered tool resolves to itself, and
      every resolvable name leads to a tool that its own namespace offers. */
  lemma {:induction false} EveryToolIsReachable(upstreams: seq<Upstream>, namespace: string, tool: string)
    requires CleanNamespaces(upstreams) && Clean(namespace)
    ensures var tools := Aggregate(map[], upstreams); var name := QualifiedName(namespace, tool);
      && (name in tools <==> Offers(upstreams, namespace, tool))
      && (name in tools ==> tools[name] == NamespacedTool(name, namespace, tool))
  {
    var tools := Aggregate(map[], upstreams);
    var name := QualifiedName(namespace, tool);
    AggregateIs(map[], upstreams);
    if name in tools {
      var i, k :| IsNameOf(upstreams, i, k, name);
      NamesAreDistinct(namespace, tool, upstreams[i].namespace, upstreams[i].tools[k]);
      assert Offers(upstreams, namespace, tool);
      OwnEntry(upstreams, namespace, tool);
    }
    if Offers(upstreams, namespace, tool) {
      var i :| 0 <= i < |upstreams| && upstreams[i].namespace == namespace && tool in upstreams[i].tools;
      var k :| 0 <= k < |upstreams[i].tools| && upstreams[i].tools[k] == tool;
      assert IsNameOf(upstreams, i, k, name);
    }
  }

  // ---- Scope ------------------------------------------------------------------

  datatype Identity = Identity(id: string, scope: set<string>)

  /** `in_scope` */
  predicate InScope(agent: Identity, name: string) {
    ToolNamespace(name) in agent.scope
  }

  /** The names `list_tools` shows to an agent. */
  function ListedNames(agent: Identity, tools: ToolMap): set<string> {
    set key | key in tools && InScope(agent, tools[key].name) :: tools[key].name
  }

  /** What the gate knows of the caller in the store: quarantine flag and tokens used. */
  datatype StoredAgent = StoredAgent(quarantined: bool, tokensUsed: real)

  datatype Verdict =
    | Unauthenticated
    | Quarantined
    | BudgetExhausted
    | ScopeViolation
    | UnknownTool
    | Admitted(entry: NamespacedTool)

  /** The checks of `_handle_call_tool` up to the risk assessment, in order. */
  function Gate(agent: Option<Identity>, stored: Option<StoredAgent>, budget: Option<real>, tools: ToolMap,
      name: string): Verdict {
    if agent.None? then Unauthenticated
    else if stored.Some? && stored.value.quarantined then Quarantined
    else if budget.Some? && stored.Some? && stored.value.tokensUsed >= budget.value then BudgetExhausted
    else if !InScope(agent.value, name) then ScopeViolation
    else if name !in tools then UnknownTool
    else Admitted(tools[name])
  }

  /** The gateway's side of a call: the checks in the order of `_handle_call_tool`. */
  class Gateway {
    const pool: UpstreamPool
    const budget: Option<real>

    constructor (pool: UpstreamPool, budget: Option<real>)
      ensures this.pool == pool && this.budget == budget
    {
      this.pool, this.budget := pool, budget;
    }

    /** The first check that fails gives the verdict: no identity, a quarantine, a spent budget, a
        namespace out of scope, a name that nobody offers. A call that passes them all is admitted. */
    method Admit(agent: Option<Identity>, stored: Option<StoredAgent>, name: string) returns (verdict: Verdict)
      ensures verdict == Gate(agent, stored, budget, pool.tools, name)
      ensures verdict.Unauthenticated? <==> agent.None?
      ensures verdict.Quarantined? <==> agent.Some? && stored.Some? && stored.value.quarantined
      ensures verdict.BudgetExhausted? <==>
        && agent.Some? && stored.Some? && !stored.value.quarantined
        && budget.Some? && stored.value.tokensUsed >= budget.value
      ensures verdict.ScopeViolation? || verdict.UnknownTool? || verdict.Admitted? <==>
        && agent.Some? && (stored.Some? ==> !stored.value.quarantined)
        && (stored.Some? && budget.Some? ==> stored.value.tokensUsed < budget.value)
      ensures verdict.ScopeViolation? ==> ToolNamespace(name) !in agent.value.scope
      ensures verdict.UnknownTool? ==> ToolNamespace(name) in agent.value.scope && name !in pool.tools
      ensures verdict.Admitted? ==>
        ToolNamespace(name) in agent.value.scope && name in pool.tools && verdict.entry == pool.tools[name]
    {
      if agent.None? {
        return Unauthenticated;
      }
      if stored.Some? && stored.value.quarantined {
        return Quarantined;
      }
      if budget.Some? && stored.Some? && stored.value.tokensUsed >= budget.value {
        return BudgetExhausted;
      }
      if !InScope(agent.value, name) {
        return ScopeViolation;
      }
      var entry := pool.Resolve(name);
      if entry.None? {
        return UnknownTool;
      }
      verdict := Admitted(entry.value);
    }
  }

  lemma {:induction false} AggregateNames(upstreams: seq<Upstream>, name: string)
    requires name in Aggregate(map[], upstreams)
    ensures var e := Aggregate(map[], upstreams)[name];
      e.name == name == QualifiedName(e.namespace, e.upstreamName)
  {
    AggregateIs(map[], upstreams);
  }

  /** Whatever names the upstreams use, the tools listed to an agent are exactly the names that
      pass both scope and resolve at call time, and the gate admits exactly a known agent's calls to
      those, short of a quarantine or a spent budget. An admitted call goes to the very namespace its
      scope was checked against exactly when that namespace is clean. */
  lemma {:induction false} AdmittedIsListedAndRoutedInScope(upstreams: seq<Upstream>, agent: Option<Identity>,
      stored: Option<StoredAgent>, budget: Option<real>, name: string)
    ensures var tools := Aggregate(map[], upstreams); var v := Gate(agent, stored, budget, tools, name);
      && (agent.Some? ==>
            (name in ListedNames(agent.value, tools) <==> ToolNamespace(name) in agent.value.scope && name in tools))
      && (v.Admitted? <==> agent.Some? && name in ListedNames(agent.value, tools)
                           && !(stored.Some? && stored.value.quarantined)
                           && !(budget.Some? && stored.Some? && stored.value.tokensUsed >= budget.value))
      && (v.Admitted? ==>
            && v.entry == tools[name]
            && Offers(upstreams, v.entry.namespace, v.entry.upstreamName)
            && name == QualifiedName(v.entry.namespace, v.entry.upstreamName)
            && (v.entry.namespace == ToolNamespace(name) <==> Clean(v.entry.namespace)))
  {
    var tools := Aggregate(map[], upstreams);
    AggregateIs(map[], upstreams);
    if name in tools {
      var e := tools[name];
      AggregateNames(upstreams, name);
      EntriesAreOffered(map[], upstreams, name);
      NamespaceReadsBack(e.namespace, e.upstreamName);
    }
  }

  /** An upstream whose namespace is not clean is checked against another namespace's scope
      than the one it is routed to. */
  lemma {:induction false} UncleanNamespaceIsMischecked(namespace: string, tool: string)
    requires !Clean(namespace)
    ensures var tools := Aggregate(map[], [Upstream(namespace, [tool])]); var name := QualifiedName(namespace, tool);
      name in tools && tools[name].namespace == namespace && ToolNamespace(name) != namespace
  {
    NamespaceReadsBack(namespace, tool);
    var name := QualifiedName(namespace, tool);
    var one := [Upstream(namespace, [tool])];
    assert [tool][1..] == [] && one[1..] == [];
    assert AddTools(map[], namespace, [tool]) == AddTools(map[name := NamespacedTool(name, namespace, tool)],
      namespace, []);
    assert Aggregate(map[], one) == Aggregate(AddTools(map[], namespace, [tool]), []);
  }
}
