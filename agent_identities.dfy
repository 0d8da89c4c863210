// Display identities of the agents, in registry order, and their lookups.
module AgentIdentities {
  import opened Wrappers
  import Text

  datatype AgentIdentity = AgentIdentity(name: string, avatar: string, icon: string, role: string, model: string)

  const DisplayModel := "Claude Sonnet 4.5"

  /** The registry as its entries in insertion order. */
  const Registry: seq<(string, AgentIdentity)> := [
    ("orchestrator", AgentIdentity("Query Router", "/avatars/orchestrator.svg", "\U{1F3AF}",
       "Routes queries to the right specialist", DisplayModel)),
    ("sql_agent", AgentIdentity("SQL Analyst", "/avatars/sql-agent.svg", "\U{1F4CA}",
       "Generates and executes DuckDB queries", DisplayModel)),
    ("python_agent", AgentIdentity("Statistical Analyst", "/avatars/python-agent.svg", "\U{1F40D}",
       "Performs statistical analysis and outlier detection", DisplayModel)),
    ("composer", AgentIdentity("Response Composer", "/avatars/composer.svg", "\U{270D}\U{FE0F}",
       "Synthesizes results into clear insights", DisplayModel)),
    ("explainer", AgentIdentity("Data Explainer", "/avatars/explainer.svg", "\U{1F4A1}",
       "Explains dataset structure and findings", DisplayModel)),
    ("validator", AgentIdentity("Result Validator", "/avatars/validator.svg", "\U{2705}",
       "Validates consistency between agent results", DisplayModel))
  ]

  const DefaultIdentity := AgentIdentity("AI Assistant", "/avatars/default.svg", "\U{1F916}",
    "General AI Assistant", "Claude")

  function IndexOf(id: string, i: nat): (r: Option<nat>)
    requires i <= |Registry|
    ensures r.Some? ==> i <= r.value < |Registry| && Registry[r.value].0 == id
    ensures r.None? ==> forall j | i <= j < |Registry| :: Registry[j].0 != id
    decreases |Registry| - i
  {
    if i == |Registry| then None
    else if Registry[i].0 == id then Some(i)
    else IndexOf(id, i + 1)
  }

  /** getAgentIdentity: the registered identity of a non-empty known id, the
    * "AI Assistant" default for null, undefined, "" or an unknown id. */
  function GetAgentIdentity(agentId: Option<string>): (r: AgentIdentity)
    ensures agentId.None? || agentId.value == "" || IndexOf(agentId.value, 0).None? ==> r == DefaultIdentity
    ensures agentId.Some? && IndexOf(agentId.value, 0).Some? ==> r == Registry[IndexOf(agentId.value, 0).value].1
  {
    if agentId.None? || agentId.value == "" then DefaultIdentity
    else match IndexOf(agentId.value, 0)
      case None => DefaultIdentity
      case Some(i) => Registry[i].1
  }

  predicate NameMatches(identity: AgentIdentity, name: string)
  {
    Text.Lower(identity.name) == Text.Lower(name)
  }

  /** findAgentIdByName from entry i on: the id of the first entry whose display
    * name equals `name` up to letter case, or null. */
  function FindFrom(name: string, i: nat): (r: Option<string>)
    requires i <= |Registry|
    ensures r.Some? ==> exists j | i <= j < |Registry| ::
              Registry[j].0 == r.value && NameMatches(Registry[j].1, name)
              && forall k | i <= k < j :: !NameMatches(Registry[k].1, name)
    ensures r.None? ==> forall j | i <= j < |Registry| :: !NameMatches(Registry[j].1, name)
    decreases |Registry| - i
  {
    if i == |Registry| then None
    else if NameMatches(Registry[i].1, name) then Some(Registry[i].0)
    else FindFrom(name, i + 1)
  }

  function FindAgentIdByName(name: string): (r: Option<string>)
    ensures r.Some? ==> exists j | 0 <= j < |Registry| ::
              Registry[j].0 == r.value && NameMatches(Registry[j].1, name)
              && forall k | 0 <= k < j :: !NameMatches(Registry[k].1, name)
    ensures r.None? ==> forall j | 0 <= j < |Registry| :: !NameMatches(Registry[j].1, name)
  {
    FindFrom(name, 0)
  }

  function IsValidAgentId(agentId: string): (b: bool)
    ensures b <==> exists j | 0 <= j < |Registry| :: Registry[j].0 == agentId
  {
    IndexOf(agentId, 0).Some?
  }

  function GetAllAgentIds(): (ids: seq<string>)
    ensures |ids| == |Registry| && forall j | 0 <= j < |ids| :: ids[j] == Registry[j].0
  {
    seq(|Registry|, j requires 0 <= j < |Registry| => Registry[j].0)
  }

  function GetAllAgentIdentities(): (ids: seq<AgentIdentity>)
    ensures |ids| == |Registry| && forall j | 0 <= j < |ids| :: ids[j] == Registry[j].1
  {
    seq(|Registry|, j requires 0 <= j < |Registry| => Registry[j].1)
  }

  /** The id list and the identity list line up, and each listed id is valid
    * and looks up its own identity. */
  lemma AllIdsAndIdentitiesCorrespond()
    ensures |GetAllAgentIds()| == |GetAllAgentIdentities()|
    ensures forall j | 0 <= j < |GetAllAgentIds()| ::
              IsValidAgentId(GetAllAgentIds()[j])
              && GetAgentIdentity(Some(GetAllAgentIds()[j])) == GetAllAgentIdentities()[j]
  {
    forall j | 0 <= j < |Registry|
      ensures IndexOf(Registry[j].0, 0) == Some(j)
    {
      IdsDistinct(j);
    }
  }

  lemma IdsDistinct(j: nat)
    requires j < |Registry|
    ensures IndexOf(Registry[j].0, 0) == Some(j)
  {
    assert forall a, b | 0 <= a < b < |Registry| :: |Registry[a].0| != |Registry[b].0| || Registry[a].0[0] != Registry[b].0[0];
  }

  /** The display names differ even up to letter case, so looking an id's
    * display name back up gives the id. */
  lemma {:induction false} NameRoundTrip(j: nat)
    requires j < |Registry|
    ensures FindAgentIdByName(GetAgentIdentity(Some(Registry[j].0)).name) == Some(Registry[j].0)
  {
    IdsDistinct(j);
    var name := Registry[j].1.name;
    forall k | 0 <= k < |Registry| && k != j
      ensures !NameMatches(Registry[k].1, name)
    {
      assert |Text.Lower(Registry[k].1.name)| == |Registry[k].1.name| != |name| == |Text.Lower(name)|;
    }
    assert NameMatches(Registry[j].1, name);
    var r := FindAgentIdByName(name);
    if r.Some? {
      var i :| 0 <= i < |Registry| && Registry[i].0 == r.value && NameMatches(Registry[i].1, name);
      assert i == j;
    }
  }
}
