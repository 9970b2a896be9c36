/**
 * The two hand-written request builders of the client template.  Each destructures
 * its argument, fixes the method and path, and makes a single `api.request` call
 * that also asks for the request to be authenticated (`security: true`).
 */
module Templates {
  import opened Js
  import opened GeneratedMethod
  import Client

  /** The argument of the one `api.request({method, path, query, body, security})` call. */
  datatype SecuredCall = SecuredCall(args: RequestArgs, security: bool)

  /**
   * `api.getProcessingResults({puuid, layers})`: a GET on the job's result whose
   * query is `{layers: true}` exactly when `layers` is truthy (the caller's own
   * value is never forwarded), with an empty body.  It builds exactly what the
   * client's `getProcessingResults` builds.
   */
  method GetProcessingResults(arg: Value) returns (r: Result<SecuredCall>)
    ensures r.Throw? <==> Nullish(arg)
    ensures r.Throw? ==> r.exception == TypeError
    ensures r.Ok? ==> r.value.security && Ok(r.value.args) == Client.ProcessingResultsArgs(arg)
  {
    if Nullish(arg) {
      return Throw(TypeError);
    }
    var puuid := Get(arg, "puuid");
    var layers := Get(arg, "layers");
    var verb := "GET";
    var path := "/v1/processes/" + ToStr(puuid) + "/result";
    var query: Fields := [];
    var body: Fields := [];
    var security := true;
    if Truthy(layers) {
      query := Define(query, "layers", Bool(true));
    }
    r := Ok(SecuredCall(RequestArgs(verb, path, query, body), security));
  }

  /** `api.getProcessingJob({puuid})`: a GET on the job itself, with empty query and body. */
  function GetProcessingJob(arg: Value): (r: Result<SecuredCall>)
    ensures r.Throw? <==> Nullish(arg)
    ensures r.Ok? ==> r.value.security && r.value.args.verb == "GET"
    ensures r.Ok? ==> r.value.args.path == "/v1/processes/" + ToStr(Get(arg, "puuid"))
    ensures r.Ok? ==> r.value.args.query == [] && r.value.args.body == []
  {
    var puuid :- Member(arg, "puuid");
    Ok(SecuredCall(RequestArgs("GET", "/v1/processes/" + ToStr(puuid), [], []), true))
  }

  /** The results of a job live under the job's own path. */
  lemma ResultsUnderJob(arg: Value)
    requires !Nullish(arg)
    ensures Client.ProcessingResultsArgs(arg).value.path == GetProcessingJob(arg).value.args.path + "/result"
  {
  }
}
