/** The jobs API module: each function turns its arguments into exactly one
    request to the REST helper and returns the helper's answer unchanged. */
module Jobs {
  import opened Json
  import opened Transport

  const CreatePath := "/api/2.0/jobs/create"
  const RunNowPath := "/api/2.2/jobs/run-now"
  const ListPath := "/api/2.0/jobs/list"
  const GetPath := "/api/2.0/jobs/get"
  const UpdatePath := "/api/2.0/jobs/update"
  const DeletePath := "/api/2.0/jobs/delete"
  const RunsGetPath := "/api/2.2/jobs/runs/get"
  const RunsCancelPath := "/api/2.0/jobs/runs/cancel"
  const RunsGetOutputPath := "/api/2.2/jobs/runs/get-output"
  const RunsRepairPath := "/api/2.2/jobs/runs/repair"

  /** One call of a jobs function, with the arguments it was given
      (`Null` for an argument that is `None`). */
  datatype Call =
    | JobsCreate(jobConfig: JsonValue)
    | JobsRunNow(jobId: JsonValue, jobParameters: JsonValue)
    | JobsList
    | JobsGet(jobId: JsonValue)
    | JobsUpdate(jobId: JsonValue, newSettings: JsonValue)
    | JobsDelete(jobId: JsonValue)
    | RunsGet(runId: JsonValue, includeHistory: JsonValue)
    | RunsCancel(runId: JsonValue)
    | RunsGetOutput(runId: JsonValue)
    | RunsRepair(runId: JsonValue, rerunTasks: JsonValue, rerunAllFailedTasks: JsonValue,
                 rerunDependentTasks: JsonValue, latestRepairId: JsonValue, jobParameters: JsonValue,
                 pipelineParams: JsonValue, performanceTarget: JsonValue)

  // ---- Specification of the request each call sends ----

  /** A payload field that is present exactly when its argument is not
      None, and then holds the argument verbatim. */
  predicate Carries(body: map<string, JsonValue>, key: string, v: JsonValue)
  {
    && (key in body <==> v != Null)
    && (key in body ==> body[key] == v)
  }

  /** `m` with `m[key] = v` done when `v is not None`. */
  function SetIfNotNone(m: map<string, JsonValue>, key: string, v: JsonValue): map<string, JsonValue>
  {
    if v == Null then m else m[key := v]
  }

  const RepairOptionalKeys: set<string> :=
    {"rerun_tasks", "rerun_all_failed_tasks", "rerun_dependent_tasks", "latest_repair_id",
     "job_parameters", "pipeline_params", "performance_target"}

  /** The argument of repair call c that the body key `key` carries
      (`Null` for a key that no argument names). */
  function RepairArgument(key: string, c: Call): JsonValue
    requires c.RunsRepair?
  {
    if key == "run_id" then c.runId
    else if key == "rerun_tasks" then c.rerunTasks
    else if key == "rerun_all_failed_tasks" then c.rerunAllFailedTasks
    else if key == "rerun_dependent_tasks" then c.rerunDependentTasks
    else if key == "latest_repair_id" then c.latestRepairId
    else if key == "job_parameters" then c.jobParameters
    else if key == "pipeline_params" then c.pipelineParams
    else if key == "performance_target" then c.performanceTarget
    else Null
  }

  /** The entries of a repair body among `keys`: `run_id` unconditionally,
      any other key when its argument is not None. */
  function RepairFields(keys: set<string>, c: Call): map<string, JsonValue>
    requires c.RunsRepair?
  {
    map key | key in keys && (key == "run_id" || RepairArgument(key, c) != Null) :: RepairArgument(key, c)
  }

  /** Every key a repair body may hold. */
  const RepairKeys: set<string> := {"run_id"} + RepairOptionalKeys

  /** Which argument each key carries: the cases of RepairArgument, stated
      once so that RepairBodyInOrder does not re-derive them. */
  lemma RepairArguments(c: Call)
    requires c.RunsRepair?
    ensures RepairArgument("run_id", c) == c.runId
    ensures RepairArgument("rerun_tasks", c) == c.rerunTasks
    ensures RepairArgument("rerun_all_failed_tasks", c) == c.rerunAllFailedTasks
    ensures RepairArgument("rerun_dependent_tasks", c) == c.rerunDependentTasks
    ensures RepairArgument("latest_repair_id", c) == c.latestRepairId
    ensures RepairArgument("job_parameters", c) == c.jobParameters
    ensures RepairArgument("pipeline_params", c) == c.pipelineParams
    ensures RepairArgument("performance_target", c) == c.performanceTarget
  {
  }

  /** One guarded insertion adds one key to the body. */
  lemma RepairFieldsInsert(keys: set<string>, key: string, c: Call)
    requires c.RunsRepair? && key != "run_id"
    ensures RepairFields(keys + {key}, c) == SetIfNotNone(RepairFields(keys, c), key, RepairArgument(key, c))
  {
  }

  /** The body of a run repair: the entries RepairFields admits among all
      eight keys. */
  function RepairBody(runId: JsonValue, rerunTasks: JsonValue, rerunAllFailedTasks: JsonValue,
                      rerunDependentTasks: JsonValue, latestRepairId: JsonValue, jobParameters: JsonValue,
                      pipelineParams: JsonValue, performanceTarget: JsonValue): map<string, JsonValue>
  {
    RepairFields(RepairKeys,
                 RunsRepair(runId, rerunTasks, rerunAllFailedTasks, rerunDependentTasks,
                            latestRepairId, jobParameters, pipelineParams, performanceTarget))
  }

  /** The body of a run repair: `run_id` always, every optional field
      exactly when it is not None, and nothing else. */
  lemma RepairBodyFields(runId: JsonValue, rerunTasks: JsonValue, rerunAllFailedTasks: JsonValue,
                         rerunDependentTasks: JsonValue, latestRepairId: JsonValue, jobParameters: JsonValue,
                         pipelineParams: JsonValue, performanceTarget: JsonValue)
    ensures var body := RepairBody(runId, rerunTasks, rerunAllFailedTasks, rerunDependentTasks,
                                   latestRepairId, jobParameters, pipelineParams, performanceTarget);
            && "run_id" in body && body["run_id"] == runId
            && Carries(body, "rerun_tasks", rerunTasks)
            && Carries(body, "rerun_all_failed_tasks", rerunAllFailedTasks)
            && Carries(body, "rerun_dependent_tasks", rerunDependentTasks)
            && Carries(body, "latest_repair_id", latestRepairId)
            && Carries(body, "job_parameters", jobParameters)
            && Carries(body, "pipeline_params", pipelineParams)
            && Carries(body, "performance_target", performanceTarget)
            && body.Keys <= {"run_id"} + RepairOptionalKeys
  {
  }

  /** Building the body one guarded insertion at a time, in the order
      `repair_run` writes them, gives the repair body. */
  lemma RepairBodyInOrder(runId: JsonValue, rerunTasks: JsonValue, rerunAllFailedTasks: JsonValue,
                          rerunDependentTasks: JsonValue, latestRepairId: JsonValue, jobParameters: JsonValue,
                          pipelineParams: JsonValue, performanceTarget: JsonValue)
    ensures RepairBody(runId, rerunTasks, rerunAllFailedTasks, rerunDependentTasks,
                       latestRepairId, jobParameters, pipelineParams, performanceTarget)
            == SetIfNotNone(SetIfNotNone(SetIfNotNone(SetIfNotNone(SetIfNotNone(SetIfNotNone(SetIfNotNone(
                 map["run_id" := runId],
                 "rerun_tasks", rerunTasks), "rerun_all_failed_tasks", rerunAllFailedTasks),
                 "rerun_dependent_tasks", rerunDependentTasks), "latest_repair_id", latestRepairId),
                 "job_parameters", jobParameters), "pipeline_params", pipelineParams),
                 "performance_target", performanceTarget)
  {
    var c := RunsRepair(runId, rerunTasks, rerunAllFailedTasks, rerunDependentTasks,
                        latestRepairId, jobParameters, pipelineParams, performanceTarget);
    RepairArguments(c);
    var keys := {"run_id"};
    assert map["run_id" := runId] == RepairFields(keys, c);
    RepairFieldsInsert(keys, "rerun_tasks", c);
    keys := keys + {"rerun_tasks"};
    RepairFieldsInsert(keys, "rerun_all_failed_tasks", c);
    keys := keys + {"rerun_all_failed_tasks"};
    RepairFieldsInsert(keys, "rerun_dependent_tasks", c);
    keys := keys + {"rerun_dependent_tasks"};
    RepairFieldsInsert(keys, "latest_repair_id", c);
    keys := keys + {"latest_repair_id"};
    RepairFieldsInsert(keys, "job_parameters", c);
    keys := keys + {"job_parameters"};
    RepairFieldsInsert(keys, "pipeline_params", c);
    keys := keys + {"pipeline_params"};
    RepairFieldsInsert(keys, "performance_target", c);
    assert keys + {"performance_target"} == RepairKeys;
  }

  /** The body of a run-now: `job_id` always, `job_parameters` exactly when
      it is truthy (so None and `{}` are both dropped). */
  function RunNowBody(jobId: JsonValue, jobParameters: JsonValue): (body: map<string, JsonValue>)
    ensures "job_id" in body && body["job_id"] == jobId
    ensures "job_parameters" in body <==> Truthy(jobParameters)
    ensures "job_parameters" in body ==> body["job_parameters"] == jobParameters
    ensures body.Keys <= {"job_id", "job_parameters"}
  {
    var m := map["job_id" := jobId];
    if Truthy(jobParameters) then m["job_parameters" := jobParameters] else m
  }

  /** The query of a runs/get: `run_id` always, `include_history="true"`
      exactly when the flag is truthy. */
  function RunsGetParams(runId: JsonValue, includeHistory: JsonValue): (params: map<string, JsonValue>)
    ensures "run_id" in params && params["run_id"] == runId
    ensures "include_history" in params <==> Truthy(includeHistory)
    ensures "include_history" in params ==> params["include_history"] == Str("true")
    ensures params.Keys <= {"run_id", "include_history"}
  {
    var m := map["run_id" := runId];
    if Truthy(includeHistory) then m["include_history" := Str("true")] else m
  }

  // ---- The fixed-shape functions: a single request expression each ----

  function CreateJobRequest(jobConfig: JsonValue): (r: Request)
    ensures r.verb == POST && r.path == CreatePath && r.params == Null
    ensures r.data == jobConfig
  {
    Request(POST, CreatePath, Null, jobConfig)
  }

  function ListJobsRequest(): (r: Request)
    ensures r.verb == GET && r.path == ListPath && r.params == Null && r.data == Null
  {
    Request(GET, ListPath, Null, Null)
  }

  function GetJobRequest(jobId: JsonValue): (r: Request)
    ensures r.verb == GET && r.path == GetPath && r.data == Null
    ensures r.params.Object? && r.params.fields.Keys == {"job_id"} && r.params.fields["job_id"] == jobId
  {
    Request(GET, GetPath, Object(map["job_id" := jobId]), Null)
  }

  function UpdateJobRequest(jobId: JsonValue, newSettings: JsonValue): (r: Request)
    ensures r.verb == POST && r.path == UpdatePath && r.params == Null
    ensures r.data.Object? && r.data.fields.Keys == {"job_id", "new_settings"}
    ensures r.data.fields["job_id"] == jobId && r.data.fields["new_settings"] == newSettings
  {
    Request(POST, UpdatePath, Null, Object(map["job_id" := jobId, "new_settings" := newSettings]))
  }

  function DeleteJobRequest(jobId: JsonValue): (r: Request)
    ensures r.verb == POST && r.path == DeletePath && r.params == Null
    ensures r.data.Object? && r.data.fields.Keys == {"job_id"} && r.data.fields["job_id"] == jobId
  {
    Request(POST, DeletePath, Null, Object(map["job_id" := jobId]))
  }

  function CancelRunRequest(runId: JsonValue): (r: Request)
    ensures r.verb == POST && r.path == RunsCancelPath && r.params == Null
    ensures r.data.Object? && r.data.fields.Keys == {"run_id"} && r.data.fields["run_id"] == runId
  {
    Request(POST, RunsCancelPath, Null, Object(map["run_id" := runId]))
  }

  function GetRunOutputRequest(runId: JsonValue): (r: Request)
    ensures r.verb == GET && r.path == RunsGetOutputPath && r.data == Null
    ensures r.params.Object? && r.params.fields.Keys == {"run_id"} && r.params.fields["run_id"] == runId
  {
    Request(GET, RunsGetOutputPath, Object(map["run_id" := runId]), Null)
  }

  /** The request every call sends. */
  function RequestOf(c: Call): Request
  {
    match c
    case JobsCreate(cfg) => CreateJobRequest(cfg)
    case JobsRunNow(id, p) => Request(POST, RunNowPath, Null, Object(RunNowBody(id, p)))
    case JobsList => ListJobsRequest()
    case JobsGet(id) => GetJobRequest(id)
    case JobsUpdate(id, s) => UpdateJobRequest(id, s)
    case JobsDelete(id) => DeleteJobRequest(id)
    case RunsGet(id, h) => Request(GET, RunsGetPath, Object(RunsGetParams(id, h)), Null)
    case RunsCancel(id) => CancelRunRequest(id)
    case RunsGetOutput(id) => GetRunOutputRequest(id)
    case RunsRepair(id, t, af, dep, lr, jp, pp, pt) =>
      Request(POST, RunsRepairPath, Null, Object(RepairBody(id, t, af, dep, lr, jp, pp, pt)))
  }

  /** The request of a run repair posts its body to runs/repair: the
      RunsRepair case of RequestOf, stated on its own so that
      BuildRepairRunRequest does not unfold the whole match. */
  lemma RequestOfRepair(runId: JsonValue, rerunTasks: JsonValue, rerunAllFailedTasks: JsonValue,
                        rerunDependentTasks: JsonValue, latestRepairId: JsonValue, jobParameters: JsonValue,
                        pipelineParams: JsonValue, performanceTarget: JsonValue)
    ensures RequestOf(RunsRepair(runId, rerunTasks, rerunAllFailedTasks, rerunDependentTasks,
                                 latestRepairId, jobParameters, pipelineParams, performanceTarget))
            == Request(POST, RunsRepairPath, Null,
                       Object(RepairBody(runId, rerunTasks, rerunAllFailedTasks, rerunDependentTasks,
                                         latestRepairId, jobParameters, pipelineParams, performanceTarget)))
  {
  }

  // ---- The inverse: what a request says about the call that sent it ----

  /** The call with the arguments that the request cannot tell apart merged:
      a falsy `job_parameters` of run-now is None, and the history flag of
      runs/get is its truthiness. */
  function Normal(c: Call): Call
  {
    match c
    case JobsRunNow(id, p) => JobsRunNow(id, if Truthy(p) then p else Null)
    case RunsGet(id, h) => RunsGet(id, Bool(Truthy(h)))
    case _ => c
  }

  /** `v.get(key)` on a dict payload, None when absent. */
  function Field(v: JsonValue, key: string): JsonValue
  {
    if v.Object? && key in v.fields then v.fields[key] else Null
  }

  /** The call a request came from, read off its method, path and payload. */
  function Decode(req: Request): Option<Call>
  {
    var d, p := req.data, req.params;
    if req.verb == POST && req.path == CreatePath then Some(JobsCreate(d))
    else if req.verb == POST && req.path == RunNowPath then Some(JobsRunNow(Field(d, "job_id"), Field(d, "job_parameters")))
    else if req.verb == GET && req.path == ListPath then Some(JobsList)
    else if req.verb == GET && req.path == GetPath then Some(JobsGet(Field(p, "job_id")))
    else if req.verb == POST && req.path == UpdatePath then Some(JobsUpdate(Field(d, "job_id"), Field(d, "new_settings")))
    else if req.verb == POST && req.path == DeletePath then Some(JobsDelete(Field(d, "job_id")))
    else if req.verb == GET && req.path == RunsGetPath then
      Some(RunsGet(Field(p, "run_id"), Bool(p.Object? && "include_history" in p.fields)))
    else if req.verb == POST && req.path == RunsCancelPath then Some(RunsCancel(Field(d, "run_id")))
    else if req.verb == GET && req.path == RunsGetOutputPath then Some(RunsGetOutput(Field(p, "run_id")))
    else if req.verb == POST && req.path == RunsRepairPath then
      Some(RunsRepair(Field(d, "run_id"), Field(d, "rerun_tasks"), Field(d, "rerun_all_failed_tasks"),
                      Field(d, "rerun_dependent_tasks"), Field(d, "latest_repair_id"), Field(d, "job_parameters"),
                      Field(d, "pipeline_params"), Field(d, "performance_target")))
    else None
  }

  /** Every request decodes to the call that sent it, up to the merging done
      by Normal: the request shaping loses nothing else. */
  lemma DecodeRequestOf(c: Call)
    ensures Decode(RequestOf(c)) == Some(Normal(c))
  {
    if c.RunsRepair? {
      RepairBodyFields(c.runId, c.rerunTasks, c.rerunAllFailedTasks, c.rerunDependentTasks,
                       c.latestRepairId, c.jobParameters, c.pipelineParams, c.performanceTarget);
    }
  }

  /** Merged calls send the same request. */
  lemma RequestOfNormal(c: Call)
    ensures RequestOf(Normal(c)) == RequestOf(c)
  {
  }

  /** Two calls send the same request exactly when they agree up to
      Normal. */
  lemma RequestOfInjective(c1: Call, c2: Call)
    ensures RequestOf(c1) == RequestOf(c2) <==> Normal(c1) == Normal(c2)
  {
    // One way through Decode, the other through RequestOfNormal.
    DecodeRequestOf(c1);
    DecodeRequestOf(c2);
    RequestOfNormal(c1);
    RequestOfNormal(c2);
  }

  /** The name of the jobs function a call invokes. */
  function FunctionName(c: Call): string
  {
    match c
    case JobsCreate(_) => "create_job"
    case JobsRunNow(_, _) => "run_job"
    case JobsList => "list_jobs"
    case JobsGet(_) => "get_job"
    case JobsUpdate(_, _) => "update_job"
    case JobsDelete(_) => "delete_job"
    case RunsGet(_, _) => "get_run"
    case RunsCancel(_) => "cancel_run"
    case RunsGetOutput(_) => "get_run_output"
    case RunsRepair(_, _, _, _, _, _, _, _) => "repair_run"
  }

  /** Each jobs function has an endpoint (method and path) of its own: two
      calls use the same endpoint exactly when they invoke the same function. */
  lemma EndpointsDistinct(c1: Call, c2: Call)
    ensures (RequestOf(c1).verb == RequestOf(c2).verb && RequestOf(c1).path == RequestOf(c2).path)
            <==> FunctionName(c1) == FunctionName(c2)
  {
  }

  /** With every optional argument None the repair body is exactly
      `{"run_id": run_id}`. */
  lemma RepairBodyMinimal(runId: JsonValue)
    ensures RepairBody(runId, Null, Null, Null, Null, Null, Null, Null) == map["run_id" := runId]
  {
  }

  /** Falsy but present values (False, 0, [], {}, "") are kept, since the
      test is `is not None`, not truthiness. */
  lemma RepairBodyKeepsFalsy(runId: JsonValue)
    ensures RepairBody(runId, List([]), Bool(false), Bool(false), Int(0), Object(map[]), Object(map[]), Str("")).Keys
            == {"run_id"} + RepairOptionalKeys
  {
  }

  /** With job_parameters None or `{}` the run-now body is exactly
      `{"job_id": job_id}`. */
  lemma RunNowBodyDropsFalsy(jobId: JsonValue, jobParameters: JsonValue)
    requires jobParameters == Null || jobParameters == Object(map[])
    ensures RunNowBody(jobId, jobParameters) == map["job_id" := jobId]
  {
  }

  /** With the default `include_history=False` the query is exactly
      `{"run_id": run_id}`. */
  lemma RunsGetParamsDefault(runId: JsonValue)
    ensures RunsGetParams(runId, Bool(false)) == map["run_id" := runId]
  {
  }

  // ---- The three functions that build their payload step by step ----

  method BuildRunJobRequest(jobId: JsonValue, jobParameters: JsonValue := Null) returns (req: Request)
    ensures req == RequestOf(JobsRunNow(jobId, jobParameters))
  {
    var runParams := map["job_id" := jobId];
    if Truthy(jobParameters) {
      runParams := runParams["job_parameters" := jobParameters];
    }
    req := Request(POST, RunNowPath, Null, Object(runParams));
  }

  method BuildGetRunRequest(runId: JsonValue, includeHistory: JsonValue := Bool(false)) returns (req: Request)
    ensures req == RequestOf(RunsGet(runId, includeHistory))
  {
    var params := map["run_id" := runId];
    if Truthy(includeHistory) {
      params := params["include_history" := Str("true")];
    }
    req := Request(GET, RunsGetPath, Object(params), Null);
  }

  /** `if v is not None: d[key] = v`. */
  method PutIfNotNone(d: map<string, JsonValue>, key: string, v: JsonValue) returns (d': map<string, JsonValue>)
    ensures d' == SetIfNotNone(d, key, v)
  {
    d' := d;
    if v != Null {
      d' := d'[key := v];
    }
  }

  method BuildRepairRunRequest(runId: JsonValue, rerunTasks: JsonValue := Null, rerunAllFailedTasks: JsonValue := Null,
                               rerunDependentTasks: JsonValue := Null, latestRepairId: JsonValue := Null,
                               jobParameters: JsonValue := Null, pipelineParams: JsonValue := Null,
                               performanceTarget: JsonValue := Null) returns (req: Request)
    ensures req == RequestOf(RunsRepair(runId, rerunTasks, rerunAllFailedTasks, rerunDependentTasks,
                                        latestRepairId, jobParameters, pipelineParams, performanceTarget))
  {
    var repairData := map["run_id" := runId];
    repairData := PutIfNotNone(repairData, "rerun_tasks", rerunTasks);
    repairData := PutIfNotNone(repairData, "rerun_all_failed_tasks", rerunAllFailedTasks);
    repairData := PutIfNotNone(repairData, "rerun_dependent_tasks", rerunDependentTasks);
    repairData := PutIfNotNone(repairData, "latest_repair_id", latestRepairId);
    repairData := PutIfNotNone(repairData, "job_parameters", jobParameters);
    repairData := PutIfNotNone(repairData, "pipeline_params", pipelineParams);
    repairData := PutIfNotNone(repairData, "performance_target", performanceTarget);
    RepairBodyInOrder(runId, rerunTasks, rerunAllFailedTasks, rerunDependentTasks,
                      latestRepairId, jobParameters, pipelineParams, performanceTarget);
    RequestOfRepair(runId, rerunTasks, rerunAllFailedTasks, rerunDependentTasks,
                    latestRepairId, jobParameters, pipelineParams, performanceTarget);
    req := Request(POST, RunsRepairPath, Null, Object(repairData));
  }

  // ---- The jobs functions: one request each, answer passed back ----

  /** The client sent exactly the request of call c, after everything sent
      before, and r is the answer to it. */
  ghost predicate Sent(client: Client, before: seq<Request>, c: Call, r: Result)
    reads client
  {
    && client.sent == before + [RequestOf(c)]
    && r == client.remote(before, RequestOf(c))
  }

  method CreateJob(client: Client, jobConfig: JsonValue) returns (r: Result)
    modifies client
    ensures Sent(client, old(client.sent), JobsCreate(jobConfig), r)
  {
    r := client.MakeApiRequest(CreateJobRequest(jobConfig));
  }

  method RunJob(client: Client, jobId: JsonValue, jobParameters: JsonValue := Null) returns (r: Result)
    modifies client
    ensures Sent(client, old(client.sent), JobsRunNow(jobId, jobParameters), r)
  {
    var req := BuildRunJobRequest(jobId, jobParameters);
    r := client.MakeApiRequest(req);
  }

  method ListJobs(client: Client) returns (r: Result)
    modifies client
    ensures Sent(client, old(client.sent), JobsList, r)
  {
    r := client.MakeApiRequest(ListJobsRequest());
  }

  method GetJob(client: Client, jobId: JsonValue) returns (r: Result)
    modifies client
    ensures Sent(client, old(client.sent), JobsGet(jobId), r)
  {
    r := client.MakeApiRequest(GetJobRequest(jobId));
  }

  method UpdateJob(client: Client, jobId: JsonValue, newSettings: JsonValue) returns (r: Result)
    modifies client
    ensures Sent(client, old(client.sent), JobsUpdate(jobId, newSettings), r)
  {
    r := client.MakeApiRequest(UpdateJobRequest(jobId, newSettings));
  }

  method DeleteJob(client: Client, jobId: JsonValue) returns (r: Result)
    modifies client
    ensures Sent(client, old(client.sent), JobsDelete(jobId), r)
  {
    r := client.MakeApiRequest(DeleteJobRequest(jobId));
  }

  method GetRun(client: Client, runId: JsonValue, includeHistory: JsonValue := Bool(false)) returns (r: Result)
    modifies client
    ensures Sent(client, old(client.sent), RunsGet(runId, includeHistory), r)
  {
    var req := BuildGetRunRequest(runId, includeHistory);
    r := client.MakeApiRequest(req);
  }

  method CancelRun(client: Client, runId: JsonValue) returns (r: Result)
    modifies client
    ensures Sent(client, old(client.sent), RunsCancel(runId), r)
  {
    r := client.MakeApiRequest(CancelRunRequest(runId));
  }

  method GetRunOutput(client: Client, runId: JsonValue) returns (r: Result)
    modifies client
    ensures Sent(client, old(client.sent), RunsGetOutput(runId), r)
  {
    r := client.MakeApiRequest(GetRunOutputRequest(runId));
  }

  method RepairRun(client: Client, runId: JsonValue, rerunTasks: JsonValue := Null, rerunAllFailedTasks: JsonValue := Null,
                   rerunDependentTasks: JsonValue := Null, latestRepairId: JsonValue := Null,
                   jobParameters: JsonValue := Null, pipelineParams: JsonValue := Null,
                   performanceTarget: JsonValue := Null) returns (r: Result)
    modifies client
    ensures Sent(client, old(client.sent),
                 RunsRepair(runId, rerunTasks, rerunAllFailedTasks, rerunDependentTasks,
                            latestRepairId, jobParameters, pipelineParams, performanceTarget), r)
  {
    var req := BuildRepairRunRequest(runId, rerunTasks, rerunAllFailedTasks, rerunDependentTasks,
                                     latestRepairId, jobParameters, pipelineParams, performanceTarget);
    r := client.MakeApiRequest(req);
  }
}
