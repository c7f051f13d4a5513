/**
 * The provisioning script of the demo app (demo_app/setup_agent.py): it
 * indexes the agents that already exist by name, picks the search
 * connection, and then updates each of the five agents it needs when one of
 * that name exists, or creates it otherwise. The project client's answers,
 * the environment and the command's exit codes are parameters; the client's
 * calls are recorded in order.
 */
module SetupAgent {
  import opened Wrappers
  import opened PyValues

  const SetFailed: string := "Error setting azd variable"
  const DefaultModel: string := "gpt-4o"
  const SearchConnectionType: string := "AzureAISearch"

  /** `set_azd_variable`: the command it runs, or what it raises when that command fails. */
  function SetAzdVariable(name: string, value: string, exitCode: int): (r: Result<string, PyError>)
    ensures r.Ok? <==> exitCode == 0
    ensures r.Ok? ==> r.value == "azd env set " + name + " " + value
    ensures r.Err? ==> r.error == RaisedException(SetFailed)
  {
    if exitCode != 0 then Err(RaisedException(SetFailed)) else Ok("azd env set " + name + " " + value)
  }

  /** An agent as the listing reports it. */
  datatype Listed = Listed(name: string, id: string)

  /** The name-to-id map after the listing loop has seen `listing`. */
  function Index(listing: seq<Listed>): map<string, string>
    decreases |listing|
  {
    if listing == [] then map[]
    else Index(listing[..|listing| - 1])[listing[|listing| - 1].name := listing[|listing| - 1].id]
  }

  /** The loop that fills the `agents` dictionary. */
  method IndexAgents(listing: seq<Listed>) returns (agents: map<string, string>)
    ensures agents == Index(listing)
  {
    agents := map[];
    var i := 0;
    while i < |listing|
      invariant 0 <= i <= |listing|
      invariant agents == Index(listing[..i])
    {
      assert listing[..i + 1][..i] == listing[..i];
      agents := agents[listing[i].name := listing[i].id];
      i := i + 1;
    }
    assert listing[..|listing|] == listing;
  }

  /** The map's keys are exactly the listed names. */
  lemma {:induction false} IndexKeys(listing: seq<Listed>)
    ensures forall name :: name in Index(listing) <==> exists i :: 0 <= i < |listing| && listing[i].name == name
    decreases |listing|
  {
    if listing != [] {
      var n := |listing| - 1;
      var before := listing[..n];
      IndexKeys(before);
      assert Index(listing) == Index(before)[listing[n].name := listing[n].id];
      forall name | name in Index(listing)
        ensures exists i :: 0 <= i < |listing| && listing[i].name == name
      {
        if name != listing[n].name {
          var i :| 0 <= i < |before| && before[i].name == name;
          assert listing[i].name == name;
        }
      }
      forall name | exists i :: 0 <= i < |listing| && listing[i].name == name
        ensures name in Index(listing)
      {
        var i :| 0 <= i < |listing| && listing[i].name == name;
        if i < n {
          assert before[i].name == name;
        }
      }
    }
  }

  /** A name listed for the last time at `i` maps to the id of that listing. */
  lemma {:induction false} IndexLastWins(listing: seq<Listed>, i: nat)
    requires i < |listing|
    requires forall j :: i < j < |listing| ==> listing[j].name != listing[i].name
    ensures listing[i].name in Index(listing) && Index(listing)[listing[i].name] == listing[i].id
    decreases |listing|
  {
    var n := |listing| - 1;
    if i < n {
      var before := listing[..n];
      assert before[i] == listing[i];
      forall j | i < j < |before|
        ensures before[j].name != before[i].name
      {
        assert before[j] == listing[j];
      }
      IndexLastWins(before, i);
    }
  }

  /** A connection of the project. */
  datatype Connection = Connection(connectionType: string, id: string, name: string)

  /** The id of the first search connection, or "". */
  function SearchConnection(connections: seq<Connection>): (r: string)
    ensures (forall i :: 0 <= i < |connections| ==> connections[i].connectionType != SearchConnectionType) ==> r == ""
    ensures forall i :: 0 <= i < |connections| && connections[i].connectionType == SearchConnectionType
                        && (forall j :: 0 <= j < i ==> connections[j].connectionType != SearchConnectionType) ==>
                          r == connections[i].id
  {
    if connections == [] then ""
    else if connections[0].connectionType == SearchConnectionType then connections[0].id
    else
      assert forall i :: 1 <= i < |connections| ==> connections[1..][i - 1] == connections[i];
      SearchConnection(connections[1..])
  }

  /** The connection loop, which stops at the first search connection. */
  method FindSearchConnection(connections: seq<Connection>) returns (id: string)
    ensures id == SearchConnection(connections)
  {
    id := "";
    var i := 0;
    while i < |connections|
      invariant 0 <= i <= |connections|
      invariant forall j :: 0 <= j < i ==> connections[j].connectionType != SearchConnectionType
      invariant id == ""
    {
      if connections[i].connectionType == SearchConnectionType {
        id := connections[i].id;
        break;
      }
      i := i + 1;
    }
  }

  /** A tool given to an agent. */
  datatype Tool = CodeInterpreter | AzureAISearch(connectionId: string, indexName: string) | Functions(names: seq<string>)

  /** What an agent is created or updated with. Temperatures are in tenths. */
  datatype AgentSpec = AgentSpec(name: string, instructions: string, temperatureTenths: int, tools: Option<seq<Tool>>)

  /** A call on the project client's agents. */
  datatype AgentCall = GetAgent(id: string) | UpdateAgent(id: string, model: string, spec: AgentSpec) | CreateAgent(model: string, spec: AgentSpec)

  /**
   * The client's answers for one agent: the agent `get_agent` finds (its id)
   * or its exception, and what `update_agent` and `create_agent` raise.
   */
  datatype Answers = Answers(get: Result<string, PyError>, update: Option<PyError>, create: Option<PyError>)

  /**
   * `add_update_agent`: the calls it makes and what it raises. Errors of
   * get and update are logged and swallowed; an error of create escapes.
   */
  function AddUpdateAgent(spec: AgentSpec, agents: map<string, string>, model: string, answers: Answers): (r: (seq<AgentCall>, Option<PyError>))
    // a known name is looked up and updated, never created
    ensures spec.name in agents ==>
              && r.1.None? && |r.0| >= 1 && r.0[0] == GetAgent(agents[spec.name])
              && forall k :: 0 <= k < |r.0| ==> !r.0[k].CreateAgent?
    ensures spec.name in agents && answers.get.Ok? ==> r.0 == [GetAgent(agents[spec.name]), UpdateAgent(answers.get.value, model, spec)]
    // any other name is created exactly once
    ensures spec.name !in agents ==> r == ([CreateAgent(model, spec)], answers.create)
  {
    if spec.name in agents then
      var id := agents[spec.name];
      match answers.get
      case Err(_) => ([GetAgent(id)], None)
      case Ok(found) => ([GetAgent(id), UpdateAgent(found, model, spec)], None)
    else ([CreateAgent(model, spec)], answers.create)
  }

  /** The names and instructions of the five agents. */
  datatype Roster = Roster(planner: (string, string), architect: (string, string), illustrator: (string, string),
                           researcher: (string, string), sciEngineer: (string, string))

  /** What `setup_agents` asks for, in order. */
  function Plan(roster: Roster, searchConnection: string, indexName: string): (r: seq<AgentSpec>)
    ensures |r| == 5
    ensures r[0].tools.None? && forall k :: 1 <= k < 5 ==> r[k].tools.Some?
    ensures |r[3].tools.value| == 2 && r[3].tools.value[0] == AzureAISearch(searchConnection, indexName)
    ensures forall k :: 0 <= k < 5 ==> r[k].temperatureTenths == [2, 3, 10, 3, 3][k]
    ensures var order := [roster.planner, roster.architect, roster.illustrator, roster.researcher, roster.sciEngineer];
            forall k :: 0 <= k < 5 ==> r[k].name == order[k].0 && r[k].instructions == order[k].1
  {
    [ AgentSpec(roster.planner.0, roster.planner.1, 2, None),
      AgentSpec(roster.architect.0, roster.architect.1, 3, Some([Functions(["query_azure_db"])])),
      AgentSpec(roster.illustrator.0, roster.illustrator.1, 10, Some([CodeInterpreter])),
      AgentSpec(roster.researcher.0, roster.researcher.1, 3,
                Some([AzureAISearch(searchConnection, indexName),
                      Functions(["retrieve_green_software_patterns_from_user_index", "query_azure_db"])])),
      AgentSpec(roster.sciEngineer.0, roster.sciEngineer.1, 3,
                Some([CodeInterpreter, Functions(["calculate_SCI", "query_azure_db"])])) ]
  }

  /** The agents of `plan` handled in order; the first create that raises stops the rest. */
  function ApplyPlan(plan: seq<AgentSpec>, agents: map<string, string>, model: string, answers: seq<Answers>): (r: (seq<AgentCall>, Option<PyError>))
    requires |answers| == |plan|
    decreases |plan|
  {
    if plan == [] then ([], None)
    else
      var (calls, raised) := AddUpdateAgent(plan[0], agents, model, answers[0]);
      if raised.Some? then (calls, raised)
      else
        var (rest, restRaised) := ApplyPlan(plan[1..], agents, model, answers[1..]);
        (calls + rest, restRaised)
  }

  /** When nothing raises, the number of agents created is the number of planned names not already listed. */
  lemma {:induction false} CreatesOnlyMissing(plan: seq<AgentSpec>, agents: map<string, string>, model: string, answers: seq<Answers>)
    requires |answers| == |plan|
    requires forall k :: 0 <= k < |plan| ==> answers[k].create.None?
    ensures ApplyPlan(plan, agents, model, answers).1.None?
    ensures Creates(ApplyPlan(plan, agents, model, answers).0) == Missing(plan, agents)
    decreases |plan|
  {
    if plan != [] {
      var (calls, _) := AddUpdateAgent(plan[0], agents, model, answers[0]);
      CreatesOnlyMissing(plan[1..], agents, model, answers[1..]);
      var rest := ApplyPlan(plan[1..], agents, model, answers[1..]).0;
      CreatesAppend(calls, rest);
      if plan[0].name !in agents {
        assert calls[1..] == [];
      }
    }
  }

  /** The specifications of the agents created by `calls`, in order. */
  function Creates(calls: seq<AgentCall>): seq<AgentSpec>
  {
    if calls == [] then []
    else (if calls[0].CreateAgent? then [calls[0].spec] else []) + Creates(calls[1..])
  }

  /** The planned agents whose names are not in the map. */
  function Missing(plan: seq<AgentSpec>, agents: map<string, string>): seq<AgentSpec>
  {
    if plan == [] then []
    else (if plan[0].name !in agents then [plan[0]] else []) + Missing(plan[1..], agents)
  }

  lemma {:induction false} CreatesAppend(a: seq<AgentCall>, b: seq<AgentCall>)
    ensures Creates(a + b) == Creates(a) + Creates(b)
    decreases |a|
  {
    if a != [] {
      assert (a + b)[1..] == a[1..] + b;
      CreatesAppend(a[1..], b);
    } else {
      assert a + b == b;
    }
  }

  /** The run of `setup_agents`: the calls on the client, what is raised, and whether telemetry is switched on. */
  datatype Setup = Setup(calls: seq<AgentCall>, raised: Option<PyError>, telemetry: bool)

  /**
   * `setup_agents`. `env` is the environment; `answers` are the client's
   * answers for the five agents in order.
   */
  method SetupAgents(env: map<string, string>, roster: Roster, connections: seq<Connection>,
                     listing: seq<Listed>, answers: seq<Answers>) returns (r: Setup)
    requires |answers| == 5
    ensures "AZURE_TENANT_ID" !in env ==> r == Setup([], Some(KeyError("AZURE_TENANT_ID")), false)
    ensures "AZURE_TENANT_ID" in env ==> r.telemetry == ("DEBUG" in env && env["DEBUG"] == "true")
    ensures "AZURE_TENANT_ID" in env && "AZURE_PATTERNS_SEARCH_INDEX" !in env ==>
              r.calls == [] && r.raised == Some(KeyError("AZURE_PATTERNS_SEARCH_INDEX"))
    ensures "AZURE_TENANT_ID" in env && "AZURE_PATTERNS_SEARCH_INDEX" in env ==>
              var model := if "AZURE_OPENAI_AGENTS_MODEL" in env then env["AZURE_OPENAI_AGENTS_MODEL"] else DefaultModel;
              var plan := Plan(roster, SearchConnection(connections), env["AZURE_PATTERNS_SEARCH_INDEX"]);
              (r.calls, r.raised) == ApplyPlan(plan, Index(listing), model, answers)
  {
    if "AZURE_TENANT_ID" !in env {
      return Setup([], Some(KeyError("AZURE_TENANT_ID")), false);
    }
    var telemetry := "DEBUG" in env && env["DEBUG"] == "true";
    var model := if "AZURE_OPENAI_AGENTS_MODEL" in env then env["AZURE_OPENAI_AGENTS_MODEL"] else DefaultModel;
    var searchConnection := FindSearchConnection(connections);
    if "AZURE_PATTERNS_SEARCH_INDEX" !in env {
      return Setup([], Some(KeyError("AZURE_PATTERNS_SEARCH_INDEX")), telemetry);
    }
    var agents := IndexAgents(listing);
    var plan := Plan(roster, searchConnection, env["AZURE_PATTERNS_SEARCH_INDEX"]);
    var (calls, raised) := ApplyPlan(plan, agents, model, answers);
    r := Setup(calls, raised, telemetry);
  }

  /** `is_debug = bool(DEBUG or "false")`: off only when DEBUG is set to the empty string. */
  function IsDebug(debug: Option<string>): (r: bool)
    ensures r <==> debug != Some("")
  {
    debug.GetOr("false") != ""
  }
}
