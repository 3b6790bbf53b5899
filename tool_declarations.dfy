/** The translation of OpenAI-style tools into the function declarations that the Anthropic
    (`_convert_tools_to_anthropic`) and Google (`_convert_tools_to_google`) providers send: the
    two loops are the same filter, and differ only in how the result is wrapped. */
module ToolDeclarations {
  import opened Types

  /** A declared function: its name, description and JSON schema of its parameters. */
  datatype Declaration = Declaration(name: Option<string>, description: Option<string>, schema: Json)

  /** `{"type": "object", "properties": {}}`, the schema of a function declared without parameters. */
  const DefaultSchema: Json := Obj(map["type" := Str("object"), "properties" := EmptyObject])

  /** Only tools whose "type" is "function" are declared. */
  predicate IsFunctionTool(t: Tool) {
    t.toolType == Some("function")
  }

  /** The declaration of one function tool: an absent "function" entry reads as `{}`. */
  function Declare(t: Tool): (d: Declaration)
    ensures t.func.Some? ==> d.name == t.func.value.name && d.description == t.func.value.description
    ensures t.func.None? ==> d.name.None? && d.description.None?
    ensures t.func.Some? && t.func.value.parameters.Some? ==> d.schema == t.func.value.parameters.value
    ensures t.func.None? || t.func.value.parameters.None? ==> d.schema == DefaultSchema
  {
    var f := t.func.GetOr(ToolFunction(None, None, None));
    Declaration(f.name, f.description, f.parameters.GetOr(DefaultSchema))
  }

  /** The declarations of a tool list: one per function tool, in order; other tools are skipped. */
  function Declarations(tools: seq<Tool>): seq<Declaration>
    decreases |tools|
  {
    if tools == [] then []
    else Declarations(tools[..|tools| - 1]) + (if IsFunctionTool(tools[|tools| - 1]) then [Declare(tools[|tools| - 1])] else [])
  }

  /** Declaring a list is declaring its parts: the filter keeps order and treats each tool alone. */
  lemma {:induction false} DeclarationsAppend(a: seq<Tool>, b: seq<Tool>)
    ensures Declarations(a + b) == Declarations(a) + Declarations(b)
    decreases |b|
  {
    if b == [] {
      assert a + b == a;
    } else {
      assert (a + b)[..|a + b| - 1] == a + b[..|b| - 1];
      DeclarationsAppend(a, b[..|b| - 1]);
    }
  }

  /** A list of function tools only is declared one for one. */
  lemma {:induction false} AllFunctionTools(tools: seq<Tool>)
    requires forall i :: 0 <= i < |tools| ==> IsFunctionTool(tools[i])
    ensures |Declarations(tools)| == |tools|
    ensures forall i :: 0 <= i < |tools| ==> Declarations(tools)[i] == Declare(tools[i])
    decreases |tools|
  {
    if tools != [] {
      AllFunctionTools(tools[..|tools| - 1]);
    }
  }

  /** Every declaration comes from a function tool of the list. */
  lemma {:induction false} DeclarationsFromFunctionTools(tools: seq<Tool>)
    ensures |Declarations(tools)| <= |tools|
    ensures forall j :: 0 <= j < |Declarations(tools)| ==>
      exists i :: 0 <= i < |tools| && IsFunctionTool(tools[i]) && Declarations(tools)[j] == Declare(tools[i])
    decreases |tools|
  {
    if tools != [] {
      var init := tools[..|tools| - 1];
      DeclarationsFromFunctionTools(init);
      var last := if IsFunctionTool(tools[|tools| - 1]) then [Declare(tools[|tools| - 1])] else [];
      assert Declarations(tools) == Declarations(init) + last;
      forall j | 0 <= j < |Declarations(tools)|
        ensures exists i :: 0 <= i < |tools| && IsFunctionTool(tools[i]) && Declarations(tools)[j] == Declare(tools[i])
      {
        if j < |Declarations(init)| {
          assert Declarations(tools)[j] == Declarations(init)[j];
          var i :| 0 <= i < |init| && IsFunctionTool(init[i]) && Declarations(init)[j] == Declare(init[i]);
          assert tools[i] == init[i];
        } else {
          assert IsFunctionTool(tools[|tools| - 1]) && Declarations(tools)[j] == Declare(tools[|tools| - 1]);
        }
      }
    }
  }

  /** The conversion loop: it appends the declaration of each function tool, in order. */
  method ConvertTools(tools: seq<Tool>) returns (decls: seq<Declaration>)
    ensures decls == Declarations(tools)
  {
    decls := [];
    var i := 0;
    while i < |tools|
      invariant 0 <= i <= |tools|
      invariant decls == Declarations(tools[..i])
    {
      assert tools[..i + 1][..i] == tools[..i];
      var tool := tools[i];
      if tool.toolType == Some("function") {
        var f := tool.func.GetOr(ToolFunction(None, None, None));
        decls := decls + [Declaration(f.name, f.description, f.parameters.GetOr(DefaultSchema))];
      }
      i := i + 1;
    }
    assert tools[..i] == tools;
  }
}
