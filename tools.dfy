/** The tool functions the server registers: each (create_cluster as
    written aside) runs one API call inside a try block and returns a
    one-element content list holding either the encoded result or the
    encoded `{"error": str(e)}` of the `Exception` it raised. */
module Tools {
  import opened Json
  import opened Transport
  import Jobs
  import NotebookExport

  datatype TextContent = TextContent(text: string)

  /** What a tool function does when called: return its content list, or
      let an exception escape to the framework. */
  datatype ToolOutcome = Returned(contents: seq<TextContent>) | Raised(message: string)

  function ErrorPayload(message: string): JsonValue
  {
    Object(map["error" := Str(message)])
  }

  /** The shared try/except: the API outcome, encoded by `encode` (the
      server's `json.dumps`, not modelled); no `Exception` escapes. */
  function Respond(outcome: Result, encode: JsonValue -> string): (r: ToolOutcome)
    ensures r.Returned? && |r.contents| == 1
    ensures outcome.Ok? ==> r.contents[0].text == encode(outcome.value)
    ensures outcome.Err? ==> r.contents[0].text == encode(ErrorPayload(outcome.message))
  {
    match outcome
    case Ok(v) => Returned([TextContent(encode(v))])
    case Err(m) => Returned([TextContent(encode(ErrorPayload(m)))])
  }

  ghost predicate Injective(encode: JsonValue -> string)
  {
    forall a, b :: encode(a) == encode(b) ==> a == b
  }

  /** Success and failure texts differ, for a faithful encoder, exactly when
      the successful result is not itself `{"error": message}`: the shape of
      the payload is all that tells them apart. */
  lemma RespondSeparatesOutcomes(v: JsonValue, message: string, encode: JsonValue -> string)
    requires Injective(encode)
    ensures Respond(Ok(v), encode) == Respond(Err(message), encode) <==> v == ErrorPayload(message)
  {
  }

  /** The client sent exactly the request of call c and the tool responded
      with the answer to it. */
  ghost predicate Answered(client: Client, before: seq<Request>, c: Jobs.Call,
                           encode: JsonValue -> string, r: ToolOutcome)
    reads client
  {
    && client.sent == before + [Jobs.RequestOf(c)]
    && r == Respond(client.remote(before, Jobs.RequestOf(c)), encode)
  }

  // ---- The validated tool arguments as Python values ----

  function OptionalBool(b: Option<bool>): JsonValue
  {
    match b
    case None => Null
    case Some(x) => Bool(x)
  }

  function OptionalInt(i: Option<int>): JsonValue
  {
    match i
    case None => Null
    case Some(x) => Int(x)
  }

  function OptionalStr(s: Option<string>): JsonValue
  {
    match s
    case None => Null
    case Some(x) => Str(x)
  }

  function OptionalStrings(ts: Option<seq<string>>): JsonValue
  {
    match ts
    case None => Null
    case Some(xs) => List(Strings(xs))
  }

  function OptionalDict(d: Option<map<string, JsonValue>>): JsonValue
  {
    match d
    case None => Null
    case Some(m) => Object(m)
  }

  /** A repair_run tool argument the caller leaves out adds no key to the
      repair body, and one the caller gives, falsy or not, is sent under its
      key as the Python value of the argument. */
  lemma RepairRunForwardsArguments(runId: string, rerunTasks: Option<seq<string>>,
                                   rerunAllFailedTasks: Option<bool>, rerunDependentTasks: Option<bool>,
                                   latestRepairId: Option<int>, jobParameters: Option<map<string, JsonValue>>,
                                   pipelineParams: Option<map<string, JsonValue>>, performanceTarget: Option<string>)
    ensures var body := Jobs.RepairBody(Str(runId), OptionalStrings(rerunTasks), OptionalBool(rerunAllFailedTasks),
                                        OptionalBool(rerunDependentTasks), OptionalInt(latestRepairId),
                                        OptionalDict(jobParameters), OptionalDict(pipelineParams),
                                        OptionalStr(performanceTarget));
            && "run_id" in body && body["run_id"] == Str(runId)
            && ("rerun_tasks" in body <==> rerunTasks.Some?)
            && (rerunTasks.Some? ==> body["rerun_tasks"] == List(Strings(rerunTasks.value)))
            && ("rerun_all_failed_tasks" in body <==> rerunAllFailedTasks.Some?)
            && (rerunAllFailedTasks.Some? ==> body["rerun_all_failed_tasks"] == Bool(rerunAllFailedTasks.value))
            && ("rerun_dependent_tasks" in body <==> rerunDependentTasks.Some?)
            && (rerunDependentTasks.Some? ==> body["rerun_dependent_tasks"] == Bool(rerunDependentTasks.value))
            && ("latest_repair_id" in body <==> latestRepairId.Some?)
            && (latestRepairId.Some? ==> body["latest_repair_id"] == Int(latestRepairId.value))
            && ("job_parameters" in body <==> jobParameters.Some?)
            && (jobParameters.Some? ==> body["job_parameters"] == Object(jobParameters.value))
            && ("pipeline_params" in body <==> pipelineParams.Some?)
            && (pipelineParams.Some? ==> body["pipeline_params"] == Object(pipelineParams.value))
            && ("performance_target" in body <==> performanceTarget.Some?)
            && (performanceTarget.Some? ==> body["performance_target"] == Str(performanceTarget.value))
  {
    Jobs.RepairBodyFields(Str(runId), OptionalStrings(rerunTasks), OptionalBool(rerunAllFailedTasks),
                          OptionalBool(rerunDependentTasks), OptionalInt(latestRepairId),
                          OptionalDict(jobParameters), OptionalDict(pipelineParams),
                          OptionalStr(performanceTarget));
  }

  /** The run_job tool's parameters reach the run-now body only when given
      and non-empty: an omitted argument and `{}` both send no
      `job_parameters`. */
  lemma RunJobForwardsParameters(jobId: string, jobParameters: Option<map<string, JsonValue>>)
    ensures var body := Jobs.RunNowBody(Str(jobId), OptionalDict(jobParameters));
            && "job_id" in body && body["job_id"] == Str(jobId)
            && ("job_parameters" in body <==> jobParameters.Some? && |jobParameters.value| > 0)
            && ("job_parameters" in body ==> body["job_parameters"] == Object(jobParameters.value))
  {
  }

  /** The get_run tool asks for the history exactly when `include_history`
      is given as true; the default False and an explicit None both leave
      it out. */
  lemma GetRunForwardsHistory(runId: string, includeHistory: Option<bool>)
    ensures var params := Jobs.RunsGetParams(Str(runId), OptionalBool(includeHistory));
            && "run_id" in params && params["run_id"] == Str(runId)
            && ("include_history" in params <==> includeHistory == Some(true))
  {
  }

  // ---- Job tools ----

  method ListJobs(client: Client, encode: JsonValue -> string) returns (r: ToolOutcome)
    modifies client
    ensures Answered(client, old(client.sent), Jobs.JobsList, encode, r)
  {
    var result := Jobs.ListJobs(client);
    r := Respond(result, encode);
  }

  method RunJob(client: Client, encode: JsonValue -> string, jobId: string,
                jobParameters: Option<map<string, JsonValue>> := None) returns (r: ToolOutcome)
    modifies client
    ensures Answered(client, old(client.sent), Jobs.JobsRunNow(Str(jobId), OptionalDict(jobParameters)), encode, r)
  {
    var result := Jobs.RunJob(client, Str(jobId), OptionalDict(jobParameters));
    r := Respond(result, encode);
  }

  method GetJob(client: Client, encode: JsonValue -> string, jobId: string) returns (r: ToolOutcome)
    modifies client
    ensures Answered(client, old(client.sent), Jobs.JobsGet(Str(jobId)), encode, r)
  {
    var result := Jobs.GetJob(client, Str(jobId));
    r := Respond(result, encode);
  }

  method GetRun(client: Client, encode: JsonValue -> string, runId: string,
                includeHistory: Option<bool> := Some(false)) returns (r: ToolOutcome)
    modifies client
    ensures Answered(client, old(client.sent), Jobs.RunsGet(Str(runId), OptionalBool(includeHistory)), encode, r)
  {
    var result := Jobs.GetRun(client, Str(runId), OptionalBool(includeHistory));
    r := Respond(result, encode);
  }

  method GetRunOutput(client: Client, encode: JsonValue -> string, runId: string) returns (r: ToolOutcome)
    modifies client
    ensures Answered(client, old(client.sent), Jobs.RunsGetOutput(Str(runId)), encode, r)
  {
    var result := Jobs.GetRunOutput(client, Str(runId));
    r := Respond(result, encode);
  }

  method RepairRun(client: Client, encode: JsonValue -> string, runId: string,
                   rerunTasks: Option<seq<string>> := None, rerunAllFailedTasks: Option<bool> := None,
                   rerunDependentTasks: Option<bool> := None, latestRepairId: Option<int> := None,
                   jobParameters: Option<map<string, JsonValue>> := None,
                   pipelineParams: Option<map<string, JsonValue>> := None,
                   performanceTarget: Option<string> := None) returns (r: ToolOutcome)
    modifies client
    ensures Answered(client, old(client.sent),
                     Jobs.RunsRepair(Str(runId), OptionalStrings(rerunTasks), OptionalBool(rerunAllFailedTasks),
                                     OptionalBool(rerunDependentTasks), OptionalInt(latestRepairId),
                                     OptionalDict(jobParameters), OptionalDict(pipelineParams),
                                     OptionalStr(performanceTarget)),
                     encode, r)
  {
    var result := Jobs.RepairRun(client, Str(runId), OptionalStrings(rerunTasks), OptionalBool(rerunAllFailedTasks),
                                 OptionalBool(rerunDependentTasks), OptionalInt(latestRepairId),
                                 OptionalDict(jobParameters), OptionalDict(pipelineParams),
                                 OptionalStr(performanceTarget));
    r := Respond(result, encode);
  }

  // ---- Notebook export tool ----

  /** `exportNotebook` is the notebooks API function, which is not part of
      this model; its outcome is truncated and then encoded. */
  method ExportNotebook(exportNotebook: (JsonValue, JsonValue) -> Result, encode: JsonValue -> string,
                        pyStr: JsonValue -> string, path: string,
                        format: Option<string> := Some("SOURCE")) returns (r: ToolOutcome)
    ensures var exported := exportNotebook(Str(path), OptionalStr(format));
            r == Respond(if exported.Ok? then NotebookExport.Truncated(exported.value, pyStr) else exported, encode)
  {
    var outcome := exportNotebook(Str(path), OptionalStr(format));
    if outcome.Ok? {
      outcome := NotebookExport.TruncateContent(outcome.value, pyStr);
    }
    r := Respond(outcome, encode);
  }

  // ---- Cluster creation ----

  /** create_cluster as written: its first statement, ahead of the try,
      formats `params`, a name nothing binds, so every call raises. */
  function CreateClusterAsWritten(createCluster: JsonValue -> Result, encode: JsonValue -> string,
                                  clusterName: string, sparkVersion: string, nodeTypeId: string,
                                  numWorkers: int, autoterminationMinutes: int): ToolOutcome
  {
    Raised("name 'params' is not defined")
  }

  /** Whatever the arguments and whatever the API would answer, the call
      escapes instead of returning an error payload. */
  lemma CreateClusterAsWrittenEscapes(createCluster: JsonValue -> Result, encode: JsonValue -> string,
                                      clusterName: string, sparkVersion: string, nodeTypeId: string,
                                      numWorkers: int, autoterminationMinutes: int)
    ensures CreateClusterAsWritten(createCluster, encode, clusterName, sparkVersion, nodeTypeId,
                                   numWorkers, autoterminationMinutes).Raised?
  {
  }

  /** The cluster specification assembled from the declared parameters. */
  function ClusterParams(clusterName: string, sparkVersion: string, nodeTypeId: string,
                         numWorkers: int, autoterminationMinutes: int): (p: JsonValue)
    ensures p.Object? && p.fields.Keys == {"cluster_name", "spark_version", "node_type_id",
                                            "num_workers", "autotermination_minutes"}
    ensures p.fields["cluster_name"] == Str(clusterName) && p.fields["spark_version"] == Str(sparkVersion)
    ensures p.fields["node_type_id"] == Str(nodeTypeId) && p.fields["num_workers"] == Int(numWorkers)
    ensures p.fields["autotermination_minutes"] == Int(autoterminationMinutes)
  {
    Object(map["cluster_name" := Str(clusterName), "spark_version" := Str(sparkVersion),
               "node_type_id" := Str(nodeTypeId), "num_workers" := Int(numWorkers),
               "autotermination_minutes" := Int(autoterminationMinutes)])
  }

  /** create_cluster as intended: assemble the parameters, then forward them
      inside the try like every other tool. */
  function CreateCluster(createCluster: JsonValue -> Result, encode: JsonValue -> string,
                         clusterName: string, sparkVersion: string, nodeTypeId: string,
                         numWorkers: int, autoterminationMinutes: int): (r: ToolOutcome)
    ensures r.Returned? && |r.contents| == 1
    ensures var outcome := createCluster(ClusterParams(clusterName, sparkVersion, nodeTypeId,
                                                       numWorkers, autoterminationMinutes));
            r.contents[0].text == encode(if outcome.Ok? then outcome.value else ErrorPayload(outcome.message))
  {
    Respond(createCluster(ClusterParams(clusterName, sparkVersion, nodeTypeId, numWorkers, autoterminationMinutes)),
            encode)
  }
}
