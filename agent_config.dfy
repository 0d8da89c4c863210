// The registry of the five pipeline agents and its two lookups.
module Config {
  import opened Wrappers

  /** The system prompts are opaque texts; the model only names them. */
  datatype Prompt = OrchestratorPrompt | SqlAgentPrompt | PythonAgentPrompt | ComposerPrompt | ExplainerPrompt

  /** One agent. The temperature is kept in tenths (0.3 is 3). */
  datatype AgentConfig = AgentConfig(
    id: string,
    name: string,
    description: string,
    icon: string,
    model: string,
    temperatureTenths: nat,
    maxTokens: nat,
    systemPrompt: Prompt,
    tools: seq<string>)

  const Model := "anthropic/claude-sonnet-4-5"

  const Agents: map<string, AgentConfig> := map[
    "orchestrator" := AgentConfig("orchestrator", "Orchestrator",
      "Routes queries to appropriate specialist agents", "\U{1F3AF}", Model, 3, 500,
      OrchestratorPrompt, ["read_data_dna", "read_context"]),
    "sql_agent" := AgentConfig("sql_agent", "SQL Agent",
      "Generates and executes DuckDB queries", "\U{1F50D}", Model, 2, 1000,
      SqlAgentPrompt, ["read_data_dna", "run_sql"]),
    "python_agent" := AgentConfig("python_agent", "Python Analyst",
      "Performs statistical analysis using Python", "\U{1F4CA}", Model, 3, 1500,
      PythonAgentPrompt, ["read_data_dna", "read_context", "run_python"]),
    "composer" := AgentConfig("composer", "Composer",
      "Synthesizes results into user-friendly responses", "\U{1F4A1}", Model, 5, 1000,
      ComposerPrompt, ["read_data_dna", "read_context", "write_context"]),
    "explainer" := AgentConfig("explainer", "Explainer",
      "Explains dataset structure and findings", "\U{1F4C4}", Model, 4, 800,
      ExplainerPrompt, ["read_data_dna"])
  ]

  /** getAgentConfig: the registered entry, or the "Unknown agent" error. */
  function GetAgentConfig(agentId: string): (r: Result<AgentConfig>)
    ensures r.Ok? <==> agentId in {"orchestrator", "sql_agent", "python_agent", "composer", "explainer"}
    ensures r.Ok? ==> r.value.id == agentId
    ensures r.Err? ==> r.error == "Unknown agent: " + agentId
  {
    if agentId in Agents then Ok(Agents[agentId]) else Err("Unknown agent: " + agentId)
  }

  /** getAgentToolIds: the tool list of a registered agent; unknown ids throw as above. */
  function GetAgentToolIds(agentId: string): (r: Result<seq<string>>)
    ensures GetAgentConfig(agentId).Ok? ==> r == Ok(GetAgentConfig(agentId).value.tools)
    ensures GetAgentConfig(agentId).Err? ==> r == Err(GetAgentConfig(agentId).error)
  {
    var config :- GetAgentConfig(agentId);
    Ok(config.tools)
  }

  /** Every entry's id is its registry key. */
  lemma IdsMatchKeys()
    ensures forall k | k in Agents :: Agents[k].id == k
  {
  }

  /** Every agent may read the Data DNA; running SQL, running Python and
    * writing context each belong to exactly one agent. */
  lemma ToolAssignment()
    ensures forall k | k in Agents :: "read_data_dna" in Agents[k].tools
    ensures forall k | k in Agents :: "run_sql" in Agents[k].tools <==> k == "sql_agent"
    ensures forall k | k in Agents :: "run_python" in Agents[k].tools <==> k == "python_agent"
    ensures forall k | k in Agents :: "write_context" in Agents[k].tools <==> k == "composer"
  {
    assert "write_context"[0] != "read_data_dna"[0] && "write_context"[0] != "read_context"[0];
    ToolLists();
  }

  /** The registry's keys and each agent's tool list. */
  lemma ToolLists()
    ensures Agents.Keys == {"orchestrator", "sql_agent", "python_agent", "composer", "explainer"}
    ensures Agents["orchestrator"].tools == ["read_data_dna", "read_context"]
    ensures Agents["sql_agent"].tools == ["read_data_dna", "run_sql"]
    ensures Agents["python_agent"].tools == ["read_data_dna", "read_context", "run_python"]
    ensures Agents["composer"].tools == ["read_data_dna", "read_context", "write_context"]
    ensures Agents["explainer"].tools == ["read_data_dna"]
  {
  }

  /** The context route asks for an agent the registry does not have. */
  lemma ContextAgentUnregistered()
    ensures GetAgentConfig("context_agent") == Err("Unknown agent: context_agent")
  {
  }
}
