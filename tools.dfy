// The function-calling schemas offered to the agents and their lookups.
module Tools {
  import opened Wrappers

  /** One declared parameter: its name and its JSON-schema type. */
  datatype Param = Param(name: string, kind: string)

  /** A tool schema; its prose description is an opaque text left out here. */
  datatype ToolDefinition = ToolDefinition(name: string, properties: seq<Param>, required: seq<string>)

  function ParamNames(ps: seq<Param>): (ns: seq<string>)
    ensures |ns| == |ps| && forall i | 0 <= i < |ps| :: ns[i] == ps[i].name
  {
    seq(|ps|, i requires 0 <= i < |ps| => ps[i].name)
  }

  const ReadDataDnaTool := ToolDefinition("read_data_dna", [Param("sections", "array")], [])
  const ReadContextTool := ToolDefinition("read_context", [Param("query_type", "string")], [])
  const WriteContextTool := ToolDefinition("write_context", [Param("insight", "object")], ["insight"])
  const RunSqlTool := ToolDefinition("run_sql", [Param("sql", "string"), Param("limit", "number")], ["sql"])
  const RunPythonTool := ToolDefinition("run_python", [Param("code", "string"), Param("timeout", "number")], ["code"])
  const WriteCodeTool := ToolDefinition("write_code",
    [Param("code", "string"), Param("language", "string"), Param("description", "string")], ["code", "language"])

  const AllTools: map<string, ToolDefinition> := map[
    "read_data_dna" := ReadDataDnaTool,
    "read_context" := ReadContextTool,
    "write_context" := WriteContextTool,
    "run_sql" := RunSqlTool,
    "run_python" := RunPythonTool,
    "write_code" := WriteCodeTool
  ]

  /** getToolsForAgent: the registered schemas of `toolIds`, in input order,
    * unknown ids dropped, repeated ids kept. */
  function GetToolsForAgent(toolIds: seq<string>): (r: seq<ToolDefinition>)
    ensures |r| <= |toolIds|
    ensures forall i | 0 <= i < |r| :: r[i].name in AllTools && AllTools[r[i].name] == r[i]
    ensures (forall i | 0 <= i < |toolIds| :: toolIds[i] in AllTools) ==>
              |r| == |toolIds| && forall i | 0 <= i < |r| :: r[i] == AllTools[toolIds[i]]
  {
    if toolIds == [] then []
    else
      var rest := GetToolsForAgent(toolIds[1..]);
      if toolIds[0] in AllTools then [AllTools[toolIds[0]]] + rest else rest
  }

  /** An id contributes a schema exactly when it is registered. */
  lemma {:induction false} GetToolsForAgentMembers(toolIds: seq<string>, t: ToolDefinition)
    ensures t in GetToolsForAgent(toolIds) <==> exists i | 0 <= i < |toolIds| :: toolIds[i] in AllTools && AllTools[toolIds[i]] == t
  {
    if toolIds != [] {
      GetToolsForAgentMembers(toolIds[1..], t);
      if exists i | 0 <= i < |toolIds[1..]| :: toolIds[1..][i] in AllTools && AllTools[toolIds[1..][i]] == t {
        var i :| 0 <= i < |toolIds[1..]| && toolIds[1..][i] in AllTools && AllTools[toolIds[1..][i]] == t;
        assert toolIds[i + 1] == toolIds[1..][i];
      }
      if exists i | 0 <= i < |toolIds| :: toolIds[i] in AllTools && AllTools[toolIds[i]] == t {
        var i :| 0 <= i < |toolIds| && toolIds[i] in AllTools && AllTools[toolIds[i]] == t;
        if i > 0 {
          assert toolIds[1..][i - 1] == toolIds[i];
        }
      }
    }
  }

  function GetToolByName(name: string): (r: Option<ToolDefinition>)
    ensures r.Some? <==> name in AllTools
    ensures r.Some? ==> r.value.name == name
  {
    if name in AllTools then Some(AllTools[name]) else None
  }

  /** Every registry key is its schema's function name, and every schema's required
    * parameters are among its declared ones. */
  lemma RegistryWellFormed()
    ensures forall k | k in AllTools :: AllTools[k].name == k
    ensures forall k | k in AllTools :: forall r | r in AllTools[k].required :: r in ParamNames(AllTools[k].properties)
    ensures AllTools["read_data_dna"].required == [] && AllTools["read_context"].required == []
  {
    assert ParamNames(WriteContextTool.properties) == ["insight"];
    assert ParamNames(RunSqlTool.properties) == ["sql", "limit"];
    assert ParamNames(RunPythonTool.properties) == ["code", "timeout"];
    assert ParamNames(WriteCodeTool.properties) == ["code", "language", "description"];
  }

  lemma NoToolsForNoIds()
    ensures GetToolsForAgent([]) == []
  {
  }
}
