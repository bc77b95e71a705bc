/**
 * Endpoint selection: the API and socket origins come from the public
 * environment variables when set, else from a production or development
 * default chosen by where the code runs.
 */
module Config {
  import opened Optional
  import opened JsStrings

  /**
   * What the selection reads: `NEXT_PUBLIC_API_URL`, `NEXT_PUBLIC_SOCKET_URL`,
   * `NODE_ENV`, and the page's hostname, absent when there is no window.
   */
  datatype Environment = Environment(
    apiUrl: Option<string>,
    socketUrl: Option<string>,
    nodeEnv: Option<string>,
    hostname: Option<string>)

  datatype Endpoints = Endpoints(apiBaseUrl: string, socketUrl: string)

  const ProductionOrigin := "https://poll-backend-py4a.onrender.com"
  const DevelopmentOrigin := "http://localhost:8787"
  const ApiPath := "/api"

  /** A variable that is defined and non-empty, hence truthy. */
  predicate IsSet(v: Option<string>) {
    v.Some? && v.value != ""
  }

  /** `isProduction()`. */
  function IsProduction(env: Environment): (b: bool)
    ensures IsSet(env.apiUrl) ==> b
    ensures !IsSet(env.apiUrl) && env.hostname.Some? ==>
      (b <==> (exists i :: OccursAt(env.hostname.value, "vercel.app", i))
              || (exists i :: OccursAt(env.hostname.value, "quick-poll", i)))
    ensures !IsSet(env.apiUrl) && env.hostname.None? ==> (b <==> env.nodeEnv == Some("production"))
  {
    if IsSet(env.apiUrl) then true
    else if env.hostname.Some? then
      Includes(env.hostname.value, "vercel.app") || Includes(env.hostname.value, "quick-poll")
    else
      env.nodeEnv == Some("production")
  }

  /** The origin used when no variable names one. */
  function DefaultOrigin(env: Environment): string {
    if IsProduction(env) then ProductionOrigin else DevelopmentOrigin
  }

  /**
   * `config`: a set variable is used verbatim; otherwise both endpoints
   * default to the same origin, the API under `/api`. Setting only the API
   * variable makes the build count as production, so the socket then
   * defaults to the production origin.
   */
  function Resolve(env: Environment): (r: Endpoints)
    ensures IsSet(env.apiUrl) ==> r.apiBaseUrl == env.apiUrl.value
    ensures IsSet(env.socketUrl) ==> r.socketUrl == env.socketUrl.value
    ensures !IsSet(env.apiUrl) ==> r.apiBaseUrl == DefaultOrigin(env) + ApiPath
    ensures !IsSet(env.socketUrl) ==> r.socketUrl == DefaultOrigin(env)
    ensures !IsSet(env.apiUrl) && !IsSet(env.socketUrl) ==> r.apiBaseUrl == r.socketUrl + ApiPath
    ensures IsSet(env.apiUrl) && !IsSet(env.socketUrl) ==> r.socketUrl == ProductionOrigin
  {
    Endpoints(
      if IsSet(env.apiUrl) then env.apiUrl.value else DefaultOrigin(env) + ApiPath,
      if IsSet(env.socketUrl) then env.socketUrl.value else DefaultOrigin(env))
  }

  /** A page served from a Vercel preview host uses the production backend. */
  lemma VercelHostIsProduction(host: string)
    requires host == "quick-poll-git-main.vercel.app"
    ensures Resolve(Environment(None, None, None, Some(host))) == Endpoints(ProductionOrigin + ApiPath, ProductionOrigin)
  {
    assert OccursAt(host, "vercel.app", 20);
  }

  /** A page served from `localhost` without variables uses the local backend. */
  lemma LocalhostIsDevelopment(nodeEnv: Option<string>)
    ensures Resolve(Environment(None, None, nodeEnv, Some("localhost")))
      == Endpoints(DevelopmentOrigin + ApiPath, DevelopmentOrigin)
  {
    var host := "localhost";
    assert !Includes(host, "vercel.app") by {
      forall i ensures !OccursAt(host, "vercel.app", i) {
        assert |host| < |"vercel.app"|;
      }
    }
    assert !Includes(host, "quick-poll") by {
      forall i ensures !OccursAt(host, "quick-poll", i) {
        assert |host| < |"quick-poll"|;
      }
    }
  }
}
