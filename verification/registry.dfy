/**
 * The tool registry (internal/tool/registry.go): tools by name, plus the order in which
 * they were registered.
 */
module ToolRegistry {
  import opened Wrappers
  import opened ToolTypes
  import opened LlmTypes

  /** The OpenAI function-calling definition of one tool. */
  function DefinitionOf(t: Tool): (d: ToolDef)
    ensures d.defType == "function"
    ensures d.func == FunctionDef(t.name, t.description, t.schema)
  {
    ToolDef("function", FunctionDef(t.name, t.description, t.schema))
  }

  class Registry {
    var tools: map<string, Tool>
    var order: seq<string>

    /** `order` lists every registered name exactly once, and each tool is filed under its own name. */
    ghost predicate Valid()
      reads this
    {
      && (forall i, j :: 0 <= i < j < |order| ==> order[i] != order[j])
      && (forall n :: n in tools <==> n in order)
      && (forall n :: n in tools ==> tools[n].name == n)
    }

    constructor ()
      ensures Valid() && tools == map[] && order == []
    {
      tools := map[];
      order := [];
    }

    /** Register panics on a name already present, so a new name is the caller's obligation. */
    method Register(t: Tool)
      requires Valid() && t.name !in tools
      modifies this
      ensures Valid()
      ensures tools == old(tools)[t.name := t]
      ensures order == old(order) + [t.name]
    {
      tools := tools[t.name := t];
      order := order + [t.name];
    }

    /** Get: the tool registered under `name`, or none. */
    function Get(name: string): (r: Option<Tool>)
      reads this
      requires Valid()
      ensures r.Some? <==> name in order
      ensures r.Some? ==> r.value.name == name && r == Some(tools[name])
    {
      if name in tools then Some(tools[name]) else None
    }

    /** Definitions: one entry per tool, in registration order. */
    method Definitions() returns (defs: seq<ToolDef>)
      requires Valid()
      ensures |defs| == |order|
      ensures forall i :: 0 <= i < |order| ==> defs[i] == DefinitionOf(tools[order[i]])
      ensures forall i :: 0 <= i < |order| ==> defs[i].func.name == order[i]
    {
      defs := [];
      var i := 0;
      while i < |order|
        invariant 0 <= i <= |order|
        invariant |defs| == i
        invariant forall k :: 0 <= k < i ==> defs[k] == DefinitionOf(tools[order[k]])
      {
        var t := tools[order[i]];
        defs := defs + [ToolDef("function", FunctionDef(t.name, t.description, t.schema))];
        i := i + 1;
      }
    }
  }

  /** Registering distinct names in turn: the names come back in that order, each once. */
  method RegisterAll(ts: seq<Tool>) returns (r: Registry)
    requires forall i, j :: 0 <= i < j < |ts| ==> ts[i].name != ts[j].name
    ensures r.Valid()
    ensures |r.order| == |ts|
    ensures forall i :: 0 <= i < |ts| ==> r.order[i] == ts[i].name && r.tools[ts[i].name] == ts[i]
  {
    r := new Registry();
    var i := 0;
    while i < |ts|
      invariant 0 <= i <= |ts|
      invariant r.Valid()
      invariant |r.order| == i
      invariant forall k :: 0 <= k < i ==> r.order[k] == ts[k].name && r.tools[ts[k].name] == ts[k]
    {
      assert ts[i].name !in r.order;
      r.Register(ts[i]);
      i := i + 1;
    }
  }
}
