/** The agent/job coordination layer of orchestrator.py: the agent table,
    the job table and the env-bundle store, and the request handlers that
    read, modify and write them back. */
module Coordination {
  import opened Http
  import opened Records
  import opened Auth
  import opened Ledger

  /** The env_file part of an upload_env request: its contents either parse
      as JSON (the parsed document) or do not. */
  datatype UploadedFile = ValidJson(doc: Payload) | InvalidJson

  /** The document upload_env stores, or the 400 it raises
      (orchestrator.py:323-332); a file takes precedence over a JSON body. */
  function UploadedDocument(file: Option<UploadedFile>, body: Option<Payload>): (r: Result<Payload>)
    ensures r.Ok? <==> (file.Some? && file.value.ValidJson?) || (file.None? && body.Some?)
    ensures r.Ok? ==> r.value == if file.Some? then file.value.doc else body.value
    ensures r.Err? ==> r.error in {BadRequest("uploaded file not valid JSON"), BadRequest("no env provided")}
  {
    match file
    case Some(ValidJson(doc)) => Ok(doc)
    case Some(InvalidJson) => Err(BadRequest("uploaded file not valid JSON"))
    case None =>
      if body.Some? then Ok(body.value) else Err(BadRequest("no env provided"))
  }

  /** The record a report leaves behind (orchestrator.py:308-310). */
  function Reported(job: Job, status: string, output: Option<string>, now: int): (j: Job)
    ensures j.jobId == job.jobId && j.agentId == job.agentId && j.args == job.args
    ensures j.isSpa == job.isSpa && j.envToken == job.envToken && j.created == job.created
    ensures j.status == status && j.output == Output(output) && j.updated == now
  {
    job.(status := status, output := Output(output), updated := now)
  }

  /** The answer of report for the authentication result `auth`: 404 for
      an unknown job, 403 for a job of another agent (orchestrator.py:302-307). */
  function ReportOutcome(auth: Result<string>, jobs: map<string, Job>, jobId: string): (r: Result<()>)
    ensures auth.Err? ==> r == Err(auth.error)
    ensures auth.Ok? && jobId !in jobs ==> r == Err(NotFound("job not found"))
    ensures r.Ok? <==> auth.Ok? && jobId in jobs && jobs[jobId].agentId == auth.value
  {
    match auth
    case Err(e) => Err(e)
    case Ok(aid) =>
      if jobId !in jobs then Err(NotFound("job not found"))
      else if jobs[jobId].agentId != aid then Err(Forbidden("job does not belong to this agent"))
      else Ok(())
  }

  /** Ownership is enforced: an agent presenting its own token cannot
      report on another agent's job, which is refused with 403. */
  lemma ReportByOtherAgentRefused(ids: seq<string>, agents: map<string, Agent>, jobs: map<string, Job>,
                                  jobId: string, caller: string)
    requires AgentTable(ids, agents)
    requires caller in agents && jobId in jobs && jobs[jobId].agentId != caller
    ensures ReportOutcome(Authenticate(Some(agents[caller].token), ids, agents), jobs, jobId)
         == Err(Forbidden("job does not belong to this agent"))
  {
    AuthenticateIff(Some(agents[caller].token), ids, agents, caller);
  }

  class Orchestrator {
    /** ADMIN_API_TOKEN, read once at start-up. */
    const adminToken: Option<string>
    /** agents.json: agent ids in insertion order, and the rows. */
    var agentIds: seq<string>
    var agents: map<string, Agent>
    /** jobs.json: job ids in insertion order, and the rows. */
    var jobIds: seq<string>
    var jobs: map<string, Job>
    /** envs/<env_token>.json, one document per token. */
    var bundles: map<string, Payload>

    ghost predicate Valid()
      reads this
    {
      AgentTable(agentIds, agents) && JobTable(jobIds, jobs, agents)
    }

    /** Start-up: both tables empty, no bundle stored. */
    constructor (adminToken: Option<string>)
      ensures Valid() && this.adminToken == adminToken
      ensures agentIds == [] && agents == map[]
      ensures jobIds == [] && jobs == map[] && bundles == map[]
    {
      this.adminToken := adminToken;
      agentIds, agents := [], map[];
      jobIds, jobs := [], map[];
      bundles := map[];
    }

    /** POST /register (orchestrator.py:198-215). `newId` and `newToken` are
        the two uuid4 values, `t1` and `t2` the two clock readings. */
    method Register(hostname: string, ip: Option<string>, sshPubkey: Option<string>,
                    meta: Option<map<string, string>>, newId: string, newToken: string, t1: int, t2: int)
      returns (agentId: string, agentToken: string)
      requires Valid()
      requires newId != "" && newId !in agents
      requires newToken != "" && forall aid :: aid in agents ==> agents[aid].token != newToken
      modifies this
      ensures Valid()
      ensures agentId == newId && agentToken == newToken
      ensures agentIds == old(agentIds) + [newId]
      ensures agents == old(agents)[newId := Agent(newId, newToken, hostname, OrEmpty(ip), OrEmpty(sshPubkey),
                                                   if meta.Some? then meta.value else map[], t1, t2)]
      ensures forall aid :: aid in old(agents) ==> aid in agents && agents[aid] == old(agents)[aid]
      ensures jobIds == old(jobIds)
      ensures jobs == old(jobs)
      ensures bundles == old(bundles)
      // the new token identifies the new agent, and every earlier token still identifies its agent
      ensures Authenticate(Some(agentToken), agentIds, agents) == Ok(agentId)
      ensures forall aid :: aid in agents ==> Authenticate(Some(agents[aid].token), agentIds, agents) == Ok(aid)
    {
      var record := Agent(newId, newToken, hostname, OrEmpty(ip), OrEmpty(sshPubkey),
                          if meta.Some? then meta.value else map[], t1, t2);
      AgentTableAdd(agentIds, agents, jobIds, jobs, record);
      agentIds := agentIds + [newId];
      agents := agents[newId := record];
      agentId, agentToken := newId, newToken;
      EveryAgentAuthenticates(agentIds, agents);
    }

    /** GET /agents (orchestrator.py:217-221). */
    method ListAgents(adminHeader: Option<string>) returns (r: Result<map<string, Agent>>)
      ensures r.Ok? <==> RequireAdmin(adminToken, adminHeader).Ok?
      ensures r.Ok? ==> r.value == agents
      ensures r.Err? ==> r.error == Forbidden("invalid admin token")
    {
      var gate := RequireAdmin(adminToken, adminHeader);
      if gate.Err? {
        return Err(gate.error);
      }
      r := Ok(agents);
    }

    /** POST /create_job (orchestrator.py:223-255). `agentId` is the payload's
        "agent_id" (None when absent), `newJobId` the uuid4 value, `t1` and
        `t2` the two clock readings. */
    method CreateJob(adminHeader: Option<string>, agentId: Option<string>, args: seq<string>, isSpa: bool,
                     envToken: Option<string>, newJobId: string, t1: int, t2: int)
      returns (r: Result<string>)
      requires Valid()
      requires newJobId !in jobs
      modifies this
      ensures Valid()
      ensures agentIds == old(agentIds)
      ensures agents == old(agents)
      ensures bundles == old(bundles)
      ensures RequireAdmin(adminToken, adminHeader).Err? ==> r == Err(Forbidden("invalid admin token"))
      ensures RequireAdmin(adminToken, adminHeader).Ok? && (agentId.None? || agentId.value !in agents)
              ==> r == Err(NotFound("agent not found"))
      ensures r.Ok? <==> RequireAdmin(adminToken, adminHeader).Ok? && agentId.Some? && agentId.value in agents
      ensures r.Err? ==> jobIds == old(jobIds) && jobs == old(jobs)
      ensures r.Ok? ==> r.value == newJobId && jobIds == old(jobIds) + [newJobId]
                        && jobs == old(jobs)[newJobId := Job(newJobId, agentId.value, args, isSpa, envToken,
                                                              Pending, NoOutput, t1, t2)]
    {
      var gate := RequireAdmin(adminToken, adminHeader);
      if gate.Err? {
        return Err(gate.error);
      }
      if agentId.None? || agentId.value !in agents {
        return Err(NotFound("agent not found"));
      }
      var job := Job(newJobId, agentId.value, args, isSpa, envToken, Pending, NoOutput, t1, t2);
      JobTableAdd(jobIds, jobs, agents, job);
      jobIds := jobIds + [newJobId];
      jobs := jobs[newJobId := job];
      r := Ok(newJobId);
    }

    /** GET /jobs (orchestrator.py:257-261). */
    method ListJobs(adminHeader: Option<string>) returns (r: Result<map<string, Job>>)
      ensures r.Ok? <==> RequireAdmin(adminToken, adminHeader).Ok?
      ensures r.Ok? ==> r.value == jobs
      ensures r.Err? ==> r.error == Forbidden("invalid admin token")
    {
      var gate := RequireAdmin(adminToken, adminHeader);
      if gate.Err? {
        return Err(gate.error);
      }
      r := Ok(jobs);
    }

    /** GET /poll_jobs (orchestrator.py:263-283): authenticate, touch the
        caller's last_seen with the clock reading `now`, and return its
        pending jobs in table order. */
    method PollJobs(header: Option<string>, now: int) returns (r: Result<seq<Job>>)
      requires Valid()
      modifies this
      ensures Valid()
      ensures agentIds == old(agentIds)
      ensures jobIds == old(jobIds)
      ensures jobs == old(jobs)
      ensures bundles == old(bundles)
      ensures Authenticate(header, old(agentIds), old(agents)).Err? ==>
                r == Err(Authenticate(header, old(agentIds), old(agents)).error) && agents == old(agents)
      ensures Authenticate(header, old(agentIds), old(agents)).Ok? ==>
                var aid := Authenticate(header, old(agentIds), old(agents)).value;
                && agents == old(agents)[aid := old(agents)[aid].(lastSeen := now)]
                && r == Ok(PendingFor(jobIds, jobs, aid))
    {
      var auth := FindAgentByToken(header, agentIds, agents);
      if auth.Err? {
        return Err(auth.error);
      }
      var aid := auth.value;
      AgentTableTouch(agentIds, agents, jobIds, jobs, aid, agents[aid].(lastSeen := now));
      agents := agents[aid := agents[aid].(lastSeen := now)];
      var pending := CollectPending(jobIds, jobs, aid);
      r := Ok(pending);
    }

    /** POST /report (orchestrator.py:290-312): authenticate, check that the
        job exists (404) and belongs to the caller (403), then overwrite its
        status, output and updated time with `now`. */
    method Report(header: Option<string>, jobId: string, status: string, output: Option<string>, now: int)
      returns (r: Result<()>)
      requires Valid()
      modifies this
      ensures Valid()
      ensures agentIds == old(agentIds)
      ensures agents == old(agents)
      ensures jobIds == old(jobIds)
      ensures bundles == old(bundles)
      ensures r == ReportOutcome(Authenticate(header, agentIds, agents), old(jobs), jobId)
      ensures jobs == if r.Ok? then old(jobs)[jobId := Reported(old(jobs)[jobId], status, output, now)] else old(jobs)
    {
      var auth := FindAgentByToken(header, agentIds, agents);
      r := ReportOutcome(auth, jobs, jobId);
      if r.Ok? {
        var updated := Reported(jobs[jobId], status, output, now);
        JobTableUpdate(jobIds, jobs, agents, updated);
        jobs := jobs[jobId := updated];
      }
    }

    /** POST /upload_env (orchestrator.py:316-342): store the document under
        "env_" followed by the uuid4 hex value `hex`. */
    method UploadEnv(adminHeader: Option<string>, file: Option<UploadedFile>, body: Option<Payload>, hex: string)
      returns (r: Result<string>)
      requires Valid()
      modifies this
      ensures Valid()
      ensures agentIds == old(agentIds)
      ensures agents == old(agents)
      ensures jobIds == old(jobIds)
      ensures jobs == old(jobs)
      ensures RequireAdmin(adminToken, adminHeader).Err? ==> r == Err(Forbidden("invalid admin token"))
      ensures RequireAdmin(adminToken, adminHeader).Ok? && UploadedDocument(file, body).Err?
              ==> r == Err(UploadedDocument(file, body).error)
      ensures r.Ok? <==> RequireAdmin(adminToken, adminHeader).Ok? && UploadedDocument(file, body).Ok?
      ensures r.Err? ==> bundles == old(bundles)
      ensures r.Ok? ==> r.value == "env_" + hex
                        && bundles == old(bundles)[r.value := UploadedDocument(file, body).value]
    {
      var gate := RequireAdmin(adminToken, adminHeader);
      if gate.Err? {
        return Err(gate.error);
      }
      var doc := UploadedDocument(file, body);
      if doc.Err? {
        return Err(doc.error);
      }
      var envToken := "env_" + hex;
      bundles := bundles[envToken := doc.value];
      r := Ok(envToken);
    }

    /** GET /download_env (orchestrator.py:344-376). */
    method DownloadEnv(header: Option<string>, envToken: string) returns (r: Result<Payload>)
      requires Valid()
      ensures r == Download(header, agentIds, agents, jobs, bundles, envToken)
    {
      var auth := FindAgentByToken(header, agentIds, agents);
      if auth.Err? {
        return Err(auth.error);
      }
      var ok := HasQualifyingJob(jobIds, jobs, auth.value, envToken);
      if !ok {
        return Err(Forbidden("no job for this agent references this env token"));
      }
      if envToken !in bundles {
        return Err(NotFound("env token not found"));
      }
      r := Ok(bundles[envToken]);
    }
  }
}
