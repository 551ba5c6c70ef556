/**
 * The Dokploy API client: its configuration, how it builds a request, how it
 * flattens the project tree into one list of composes, and how it shapes the
 * health summary of one compose. The HTTP exchanges themselves are parameters.
 */
module Dokploy {
  import opened Wrappers
  import opened Values
  import Seqs

  const DEFAULT_BASE_URL: string := "https://settings.sphyrnasolutions.com/api"
  const MISSING_KEY_ERROR: string := "DOKPLOY_API_KEY no configurada en .env"

  const PROJECT_ALL: string := "/project.all"
  const COMPOSE_ONE: string := "/compose.one"
  const COMPOSE_LOAD_SERVICES: string := "/compose.loadServices"

  /** An HTTP header set, in the order the client writes it. */
  type Headers = seq<(string, string)>

  /** A configured client; nothing in it changes after construction. */
  datatype Client = Client(baseUrl: string, apiKey: string, headers: Headers)

  /** One HTTP request as the client hands it to the HTTP library. */
  datatype Request = Request(verb: string, url: string, headers: Headers, params: seq<(string, string)>)

  function HeaderValue(h: Headers, name: string): Option<string>
  {
    if h == [] then None
    else if h[0].0 == name then Some(h[0].1)
    else HeaderValue(h[1..], name)
  }

  /**
   * The constructor, given what the environment holds for DOKPLOY_API_URL and
   * DOKPLOY_API_KEY. A missing or empty key raises.
   */
  function NewClient(envBaseUrl: Option<string>, envApiKey: Option<string>): (r: Result<Client, string>)
    ensures r.Ok? <==> TruthyText(envApiKey)
    ensures r.Err? ==> r.error == MISSING_KEY_ERROR
    ensures r.Ok? ==> r.value.apiKey == envApiKey.value
    ensures r.Ok? ==> r.value.baseUrl == envBaseUrl.GetOr(DEFAULT_BASE_URL)
    ensures r.Ok? ==> HeaderValue(r.value.headers, "x-api-key") == Some(envApiKey.value)
    ensures r.Ok? ==> HeaderValue(r.value.headers, "Content-Type") == Some("application/json")
    ensures r.Ok? ==> HeaderValue(r.value.headers, "Accept") == Some("application/json")
    ensures r.Ok? ==> HeaderValue(r.value.headers, "Authorization") == None
  {
    if !TruthyText(envApiKey) then Err(MISSING_KEY_ERROR)
    else
      var key := envApiKey.value;
      var headers := [("x-api-key", key), ("Content-Type", "application/json"), ("Accept", "application/json")];
      assert HeaderValue(headers[1..][1..][1..], "Authorization") == None;
      assert HeaderValue(headers[1..][1..], "Authorization") == None;
      assert HeaderValue(headers[1..], "Authorization") == None;
      assert HeaderValue(headers[1..][1..], "Accept") == Some("application/json");
      Ok(Client(envBaseUrl.GetOr(DEFAULT_BASE_URL), key, headers))
  }

  /** `_request`: the URL is the base URL followed by the endpoint, with the client's headers. */
  function BuildRequest(c: Client, verb: string, endpoint: string, params: seq<(string, string)>): (r: Request)
    ensures |r.url| == |c.baseUrl| + |endpoint|
    ensures r.url[..|c.baseUrl|] == c.baseUrl && r.url[|c.baseUrl|..] == endpoint
    ensures r.headers == c.headers && r.verb == verb && r.params == params
  {
    Request(verb, c.baseUrl + endpoint, c.headers, params)
  }

  /** The request `get_all_composes` issues first, through `get_all_projects`. */
  function ProjectsRequest(c: Client): (r: Request)
    ensures r.url == c.baseUrl + PROJECT_ALL && r.verb == "GET" && r.params == [] && r.headers == c.headers
  {
    BuildRequest(c, "GET", PROJECT_ALL, [])
  }

  /** The two requests `get_compose_health` issues, in order. */
  function HealthRequests(c: Client, composeId: string): (rs: seq<Request>)
    ensures |rs| == 2
    ensures rs[0].url == c.baseUrl + COMPOSE_ONE && rs[1].url == c.baseUrl + COMPOSE_LOAD_SERVICES
    ensures forall k :: 0 <= k < 2 ==> rs[k].verb == "GET" && rs[k].params == [("composeId", composeId)]
  {
    [BuildRequest(c, "GET", COMPOSE_ONE, [("composeId", composeId)]),
     BuildRequest(c, "GET", COMPOSE_LOAD_SERVICES, [("composeId", composeId)])]
  }

  // ---------------------------------------------------------------------------
  // The project tree and its flattening

  /**
   * An environment of the `/project.all` answer. `None` marks an absent key;
   * a present "compose" is a list of compose records.
   */
  datatype Environment = Environment(name: Option<Value>, environmentId: Option<Value>, compose: Option<seq<Record>>)

  datatype Project = Project(name: Option<Value>, projectId: Option<Value>, environments: Option<seq<Environment>>)

  /** The four fields `get_all_composes` writes into every compose. */
  datatype Provenance = Provenance(projectName: Value, projectId: Value, environmentName: Value, environmentId: Value)

  const STAMP_KEYS: set<string> := {"project_name", "project_id", "environment_name", "environment_id"}

  /** `.get("name", "Unknown")` and `.get("...Id")` on the enclosing project and environment. */
  function ProvenanceOf(p: Project, e: Environment): (pv: Provenance)
    ensures pv.projectName == p.name.GetOr(Str("Unknown"))
    ensures pv.environmentName == e.name.GetOr(Str("Unknown"))
    ensures pv.projectId == p.projectId.GetOr(Null) && pv.environmentId == e.environmentId.GetOr(Null)
  {
    Provenance(p.name.GetOr(Str("Unknown")), p.projectId.GetOr(Null),
               e.name.GetOr(Str("Unknown")), e.environmentId.GetOr(Null))
  }

  /** The four key assignments on one compose. */
  function Stamp(c: Record, pv: Provenance): (r: Record)
    ensures r.Keys == c.Keys + STAMP_KEYS
    ensures forall k :: k in c && k !in STAMP_KEYS ==> r[k] == c[k]
    ensures r["project_name"] == pv.projectName && r["project_id"] == pv.projectId
    ensures r["environment_name"] == pv.environmentName && r["environment_id"] == pv.environmentId
  {
    c["project_name" := pv.projectName]["project_id" := pv.projectId]
     ["environment_name" := pv.environmentName]["environment_id" := pv.environmentId]
  }

  function StampAll(cs: seq<Record>, pv: Provenance): (rs: seq<Record>)
    ensures |rs| == |cs|
    ensures forall k :: 0 <= k < |cs| ==> rs[k] == Stamp(cs[k], pv)
  {
    seq(|cs|, k requires 0 <= k < |cs| => Stamp(cs[k], pv))
  }

  function EnvironmentsOf(p: Project): seq<Environment> { p.environments.GetOr([]) }

  function ComposesOf(e: Environment): seq<Record> { e.compose.GetOr([]) }

  /** The composes contributed by the environments `envs` of project `p`, in order. */
  function EnvironmentComposes(p: Project, envs: seq<Environment>): seq<Record>
  {
    if envs == [] then []
    else
      var e := envs[|envs| - 1];
      EnvironmentComposes(p, envs[..|envs| - 1]) + StampAll(ComposesOf(e), ProvenanceOf(p, e))
  }

  /** Every compose of every environment of every project, in project, environment, compose order. */
  function AllComposes(ps: seq<Project>): seq<Record>
  {
    if ps == [] then []
    else AllComposes(ps[..|ps| - 1]) + EnvironmentComposes(ps[|ps| - 1], EnvironmentsOf(ps[|ps| - 1]))
  }

  function EnvironmentCount(envs: seq<Environment>): nat
  {
    if envs == [] then 0 else EnvironmentCount(envs[..|envs| - 1]) + |ComposesOf(envs[|envs| - 1])|
  }

  function ComposeCount(ps: seq<Project>): nat
  {
    if ps == [] then 0 else ComposeCount(ps[..|ps| - 1]) + EnvironmentCount(EnvironmentsOf(ps[|ps| - 1]))
  }

  /**
   * `get_all_composes` over the already fetched project list: three nested
   * loops that stamp each compose and append it.
   */
  method GetAllComposes(projects: seq<Project>) returns (composes: seq<Record>)
    ensures composes == AllComposes(projects)
  {
    composes := [];
    for i := 0 to |projects|
      invariant composes == AllComposes(projects[..i])
    {
      var project := projects[i];
      var projectName := project.name.GetOr(Str("Unknown"));
      var projectId := project.projectId.GetOr(Null);
      var envs := EnvironmentsOf(project);
      ghost var before := composes;
      for j := 0 to |envs|
        invariant composes == before + EnvironmentComposes(project, envs[..j])
      {
        var environment := envs[j];
        var stamped := StampEnvironment(projectName, projectId, environment);
        assert stamped == StampAll(ComposesOf(environment), ProvenanceOf(project, environment));
        Seqs.AppendAssoc(before, EnvironmentComposes(project, envs[..j]), stamped);
        composes := composes + stamped;
        assert envs[..j + 1][..j] == envs[..j];
      }
      assert envs[..|envs|] == envs;
      assert projects[..i + 1][..i] == projects[..i];
    }
    assert projects[..|projects|] == projects;
  }

  /** The inner loop of `get_all_composes`: every compose of one environment, stamped with where it lives. */
  method StampEnvironment(projectName: Value, projectId: Value, environment: Environment) returns (stamped: seq<Record>)
    ensures stamped == StampAll(ComposesOf(environment),
                                Provenance(projectName, projectId, environment.name.GetOr(Str("Unknown")),
                                           environment.environmentId.GetOr(Null)))
  {
    var envName := environment.name.GetOr(Str("Unknown"));
    var cs := ComposesOf(environment);
    ghost var pv := Provenance(projectName, projectId, envName, environment.environmentId.GetOr(Null));
    stamped := [];
    for k := 0 to |cs|
      invariant stamped == StampAll(cs[..k], pv)
    {
      var compose := cs[k];
      compose := compose["project_name" := projectName];
      compose := compose["project_id" := projectId];
      compose := compose["environment_name" := envName];
      compose := compose["environment_id" := environment.environmentId.GetOr(Null)];
      assert StampAll(cs[..k + 1], pv) == StampAll(cs[..k], pv) + [compose];
      stamped := stamped + [compose];
    }
    assert cs[..|cs|] == cs;
  }

  /** The flattened list has exactly as many composes as the environments hold. */
  lemma {:induction false} AllComposesLength(ps: seq<Project>)
    ensures |AllComposes(ps)| == ComposeCount(ps)
    decreases |ps|
  {
    if ps != [] {
      AllComposesLength(ps[..|ps| - 1]);
      EnvironmentComposesLength(ps[|ps| - 1], EnvironmentsOf(ps[|ps| - 1]));
    }
  }

  lemma {:induction false} EnvironmentComposesLength(p: Project, envs: seq<Environment>)
    ensures |EnvironmentComposes(p, envs)| == EnvironmentCount(envs)
    decreases |envs|
  {
    if envs != [] {
      EnvironmentComposesLength(p, envs[..|envs| - 1]);
    }
  }

  /** Flattening two project lists one after the other gives the two flat lists one after the other. */
  lemma {:induction false} AllComposesConcat(a: seq<Project>, b: seq<Project>)
    ensures AllComposes(a + b) == AllComposes(a) + AllComposes(b)
    decreases |b|
  {
    if b == [] {
      assert a + b == a;
    } else {
      var b', last := b[..|b| - 1], b[|b| - 1];
      var tail := EnvironmentComposes(last, EnvironmentsOf(last));
      assert (a + b)[..|a + b| - 1] == a + b';
      assert (a + b)[|a + b| - 1] == last;
      assert AllComposes(a + b) == AllComposes(a + b') + tail;
      assert AllComposes(b) == AllComposes(b') + tail;
      AllComposesConcat(a, b');
      Seqs.AppendAssoc(AllComposes(a), AllComposes(b'), tail);
    }
  }

  lemma {:induction false} EnvironmentComposesConcat(p: Project, a: seq<Environment>, b: seq<Environment>)
    ensures EnvironmentComposes(p, a + b) == EnvironmentComposes(p, a) + EnvironmentComposes(p, b)
    decreases |b|
  {
    if b == [] {
      assert a + b == a;
    } else {
      var b', last := b[..|b| - 1], b[|b| - 1];
      var tail := StampAll(ComposesOf(last), ProvenanceOf(p, last));
      assert (a + b)[..|a + b| - 1] == a + b';
      assert (a + b)[|a + b| - 1] == last;
      assert EnvironmentComposes(p, a + b) == EnvironmentComposes(p, a + b') + tail;
      assert EnvironmentComposes(p, b) == EnvironmentComposes(p, b') + tail;
      EnvironmentComposesConcat(p, a, b');
      Seqs.AppendAssoc(EnvironmentComposes(p, a), EnvironmentComposes(p, b'), tail);
    }
  }

  lemma AllComposesSingle(p: Project)
    ensures AllComposes([p]) == EnvironmentComposes(p, EnvironmentsOf(p))
  {
    assert [p][..0] == [];
  }

  lemma EnvironmentComposesSingle(p: Project, e: Environment)
    ensures EnvironmentComposes(p, [e]) == StampAll(ComposesOf(e), ProvenanceOf(p, e))
  {
    assert [e][..0] == [];
  }

  /**
   * The flat list is the projects' own lists in project order, and a project's
   * list is its environments' stamped compose lists in environment order.
   */
  lemma ProjectOrder(before: seq<Project>, p: Project, after: seq<Project>)
    ensures AllComposes(before + [p] + after) ==
            AllComposes(before) + EnvironmentComposes(p, EnvironmentsOf(p)) + AllComposes(after)
  {
    AllComposesConcat(before + [p], after);
    AllComposesConcat(before, [p]);
    AllComposesSingle(p);
  }

  lemma EnvironmentOrder(p: Project, before: seq<Environment>, e: Environment, after: seq<Environment>)
    ensures EnvironmentComposes(p, before + [e] + after) ==
            EnvironmentComposes(p, before) + StampAll(ComposesOf(e), ProvenanceOf(p, e)) + EnvironmentComposes(p, after)
  {
    EnvironmentComposesConcat(p, before + [e], after);
    EnvironmentComposesConcat(p, before, [e]);
    EnvironmentComposesSingle(p, e);
  }

  /** A project without "environments" contributes nothing. */
  lemma NoEnvironmentsNoComposes(before: seq<Project>, p: Project, after: seq<Project>)
    requires p.environments.None?
    ensures AllComposes(before + [p] + after) == AllComposes(before) + AllComposes(after)
  {
    assert EnvironmentsOf(p) == [];
    assert EnvironmentComposes(p, EnvironmentsOf(p)) == [];
    ProjectOrder(before, p, after);
  }

  /** An environment without "compose" contributes nothing. */
  lemma NoComposeKeyNoComposes(p: Project, before: seq<Environment>, e: Environment, after: seq<Environment>)
    requires e.compose.None?
    ensures EnvironmentComposes(p, before + [e] + after) == EnvironmentComposes(p, before) + EnvironmentComposes(p, after)
  {
    EnvironmentOrder(p, before, e, after);
  }

  /** `get_all_composes` as a whole: a failed `/project.all` fetch raises. */
  method FetchAllComposes(projects: Result<seq<Project>, string>) returns (r: Result<seq<Record>, string>)
    ensures projects.Err? ==> r == Err(projects.error)
    ensures projects.Ok? ==> r == Ok(AllComposes(projects.value))
  {
    match projects
    case Err(e) => r := Err(e);
    case Ok(ps) =>
      var composes := GetAllComposes(ps);
      r := Ok(composes);
  }

  // ---------------------------------------------------------------------------
  // Health summary of one compose

  datatype ComposeHealth = ComposeHealth(composeId: string, name: Value, status: Value, servicesCount: nat, services: seq<Record>)

  /** The record `get_compose_health` returns from the two answers it fetched. */
  function HealthSummary(composeId: string, composeInfo: Record, services: seq<Record>): (h: ComposeHealth)
    ensures h.composeId == composeId && h.services == services && h.servicesCount == |services|
    ensures h.name == Get(composeInfo, "name", Str("Unknown"))
    ensures h.status == Get(composeInfo, "composeStatus", Str("unknown"))
  {
    ComposeHealth(composeId, Get(composeInfo, "name", Str("Unknown")), Get(composeInfo, "composeStatus", Str("unknown")),
                  |services|, services)
  }

  /**
   * `get_compose_health` with its two fetches as parameters. The compose is
   * fetched first, so its failure is the one reported.
   */
  function GetComposeHealth(composeId: string, info: Result<Record, string>, services: Result<seq<Record>, string>)
    : (r: Result<ComposeHealth, string>)
    ensures r.Ok? <==> info.Ok? && services.Ok?
    ensures info.Err? ==> r == Err(info.error)
    ensures info.Ok? && services.Err? ==> r == Err(services.error)
    ensures r.Ok? ==> r.value == HealthSummary(composeId, info.value, services.value)
  {
    match info
    case Err(e) => Err(e)
    case Ok(ci) =>
      match services
      case Err(e) => Err(e)
      case Ok(ss) => Ok(HealthSummary(composeId, ci, ss))
  }
}
