/** The health handler of api_v1/endpoints/health.py. */
module HealthEndpoint {
  import opened Errors
  import opened Dependencies
  import Config
  import Schemas

  const Connected: string := "connected"

  /** One entry of the services map: "connected" when the accessor returns a
      handle (handles are always truthy objects), "error: <message>" when it
      raises. */
  function ServiceStatus<T>(access: Result<T>): (v: string)
    ensures v == Connected <==> access.Ok?
    ensures access.Raise? ==> v == "error: " + access.exc.message
  {
    match access
    case Ok(_) => Connected
    case Raise(e) =>
      assert ("error: " + e.message)[0] != Connected[0];
      "error: " + e.message
  }

  /** `health_check`: the two services, the overall status, and the version
      and environment from the settings. */
  function HealthCheck(d: Deps, s: Config.Settings): (h: Schemas.HealthResponse)
    ensures h.services.Keys == {"huggingface", "llm"}
    ensures h.status in {"healthy", "degraded"}
    ensures h.status == "healthy" <==> forall k :: k in h.services ==> h.services[k] == Connected
    ensures h.status == "healthy" <==> d.hfClient.Some? && d.llm.Some?
    ensures h.version == s.appVersion && h.environment == s.environment
  {
    var services := map["huggingface" := ServiceStatus(GetHfClient(d)), "llm" := ServiceStatus(GetLlm(d))];
    var allConnected := forall k :: k in services ==> services[k] == Connected;
    assert allConnected <==> services["huggingface"] == Connected && services["llm"] == Connected;
    Schemas.HealthResponse(if allConnected then "healthy" else "degraded", s.appVersion, s.environment, services)
  }

  /** After `cleanup_clients` the service reports itself degraded, each entry
      carrying the accessor's error message. */
  lemma DegradedAfterCleanup(d: Deps, s: Config.Settings)
    ensures var h := HealthCheck(CleanupClients(d), s);
            && h.status == "degraded"
            && h.services["huggingface"] == "error: " + HfNotInitialised
            && h.services["llm"] == "error: " + LlmNotInitialised
  {
  }
}
