/** End-to-end runs of the protocol against a fresh orchestrator, derived
    from the handlers' contracts alone. Identifiers and clock readings are
    parameters, so each run covers every choice of them. */
module Scenarios {
  import opened Http
  import opened Records
  import opened Auth
  import opened Ledger
  import opened Coordination

  /** A fresh orchestrator without an admin secret, one agent registered
      with `token` and one job created for it. */
  method RegisterAndCreate(agentId: string, token: string, jobId: string, args: seq<string>, envToken: Option<string>, t: int)
    returns (o: Orchestrator)
    requires agentId != "" && token != ""
    ensures fresh(o) && o.Valid() && o.adminToken == None
    ensures o.agentIds == [agentId] && o.agents.Keys == {agentId}
    ensures Authenticate(Some(token), o.agentIds, o.agents) == Ok(agentId)
    ensures o.jobIds == [jobId] && o.jobs == map[jobId := Job(jobId, agentId, args, false, envToken, Pending, NoOutput, t, t)]
    ensures o.bundles == map[]
  {
    o := new Orchestrator(None);
    var aid, tok := o.Register("h1", None, None, None, agentId, token, t, t);
    var created := o.CreateJob(None, Some(aid), args, false, envToken, jobId, t, t);
  }

  /** Register an agent and create one job for it: the agent's poll
      returns exactly that job, pending. */
  method CreatedJobIsPolled(agentId: string, token: string, jobId: string, args: seq<string>, t: int)
    returns (polled: Result<seq<Job>>)
    requires agentId != "" && token != ""
    ensures polled == Ok([Job(jobId, agentId, args, false, None, Pending, NoOutput, t, t)])
  {
    var o := RegisterAndCreate(agentId, token, jobId, args, None, t);
    var job := Job(jobId, agentId, args, false, None, Pending, NoOutput, t, t);
    polled := o.PollJobs(Some(token), t);
    assert [jobId][1..] == [];
    assert PendingFor([jobId], map[jobId := job], agentId) == [job];
  }

  /** Register an agent, create one job for it, and let the agent report it
      "done": its next poll returns nothing, and the admin job list shows
      the job as done with the reported output. */
  method ReportedJobIsNotPolledAgain(agentId: string, token: string, jobId: string, args: seq<string>, t: int)
    returns (polled: Result<seq<Job>>, listed: Result<map<string, Job>>)
    requires agentId != "" && token != ""
    ensures polled == Ok([])
    ensures listed.Ok? && jobId in listed.value
    ensures listed.value[jobId].status == "done" && listed.value[jobId].output == Output(Some("ok"))
  {
    var o := RegisterAndCreate(agentId, token, jobId, args, None, t);
    var reported := o.Report(Some(token), jobId, "done", Some("ok"), t);
    assert reported.Ok?;
    assert jobId in o.jobs && o.jobs[jobId].status == "done";
    assert HasToken(o.agents, agentId, token);
    AuthenticateIff(Some(token), o.agentIds, o.agents, agentId);
    polled := o.PollJobs(Some(token), t);
    assert [jobId][1..] == [];
    assert PendingFor([jobId], o.jobs, agentId) == [];
    listed := o.ListJobs(None);
  }

  /** A job references a bundle that has not been uploaded yet: the owning
      agent's download answers 404; after the upload the same request
      returns the uploaded document. */
  method DownloadWaitsForUpload(agentId: string, token: string, jobId: string, hex: string, doc: Payload, t: int)
    returns (before: Result<Payload>, after: Result<Payload>)
    requires agentId != "" && token != ""
    ensures before == Err(NotFound("env token not found"))
    ensures after == Ok(doc)
  {
    var envToken := "env_" + hex;
    var o := RegisterAndCreate(agentId, token, jobId, [], Some(envToken), t);
    assert Qualifies(o.jobs[jobId], agentId, envToken);
    before := o.DownloadEnv(Some(token), envToken);
    var uploaded := o.UploadEnv(None, None, Some(doc), hex);
    after := o.DownloadEnv(Some(token), envToken);
  }
}
