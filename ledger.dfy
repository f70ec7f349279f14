/** Reads of the job table: the pending-jobs filter behind poll_jobs
    (orchestrator.py:278-283) and the derived authorisation behind
    download_env (orchestrator.py:361-376). */
module Ledger {
  import opened Http
  import opened Records
  import opened Auth

  /** The job is offered to agent `aid` by a poll. */
  predicate IsPendingFor(job: Job, aid: string) {
    job.agentId == aid && job.status == Pending
  }

  /** The jobs a poll by `aid` returns: the pending jobs of `aid`, in table order. */
  function PendingFor(ids: seq<string>, jobs: map<string, Job>, aid: string): (r: seq<Job>)
    ensures |r| <= |ids|
    ensures forall j :: j in r ==> IsPendingFor(j, aid) && j in jobs.Values
    ensures forall i :: 0 <= i < |ids| && ids[i] in jobs && IsPendingFor(jobs[ids[i]], aid) ==> jobs[ids[i]] in r
    decreases |ids|
  {
    if ids == [] then []
    else
      (if ids[0] in jobs && IsPendingFor(jobs[ids[0]], aid) then [jobs[ids[0]]] else [])
      + PendingFor(ids[1..], jobs, aid)
  }

  /** The filter keeps table order: polling a table that is the
      concatenation of two key runs returns the two runs' results in turn. */
  lemma {:induction false} PendingForConcat(a: seq<string>, b: seq<string>, jobs: map<string, Job>, aid: string)
    ensures PendingFor(a + b, jobs, aid) == PendingFor(a, jobs, aid) + PendingFor(b, jobs, aid)
    decreases |a|
  {
    if a == [] {
      assert a + b == b;
    } else {
      assert (a + b)[0] == a[0];
      assert (a + b)[1..] == a[1..] + b;
      PendingForConcat(a[1..], b, jobs, aid);
    }
  }

  /** Extending the key order by one key adds that key's job at the end, when it is pending for `aid`. */
  lemma PendingForSnoc(ids: seq<string>, k: string, jobs: map<string, Job>, aid: string)
    ensures PendingFor(ids + [k], jobs, aid)
      == PendingFor(ids, jobs, aid) + (if k in jobs && IsPendingFor(jobs[k], aid) then [jobs[k]] else [])
  {
    PendingForConcat(ids, [k], jobs, aid);
    assert [k][1..] == [];
  }

  /** A job stored under a key the order does not list does not affect the poll. */
  lemma {:induction false} PendingForUnlisted(ids: seq<string>, jobs: map<string, Job>, jid: string, job: Job, aid: string)
    requires jid !in ids
    ensures PendingFor(ids, jobs[jid := job], aid) == PendingFor(ids, jobs, aid)
    decreases |ids|
  {
    if ids != [] {
      PendingForUnlisted(ids[1..], jobs, jid, job, aid);
    }
  }

  /** A job added by create_job is offered to its agent, after that agent's
      older pending jobs, and to no other agent. */
  lemma CreatedJobPolled(ids: seq<string>, jobs: map<string, Job>, jid: string, job: Job, aid: string)
    requires jid !in ids
    ensures PendingFor(ids + [jid], jobs[jid := job], aid)
      == PendingFor(ids, jobs, aid) + (if IsPendingFor(job, aid) then [job] else [])
  {
    PendingForConcat(ids, [jid], jobs[jid := job], aid);
    PendingForUnlisted(ids, jobs, jid, job, aid);
    assert [jid][1..] == [];
  }

  /** `s` without the records whose job_id is `jid`, order kept. */
  function WithoutJob(s: seq<Job>, jid: string): (r: seq<Job>)
    ensures forall j :: j in r <==> j in s && j.jobId != jid
    decreases |s|
  {
    if s == [] then []
    else (if s[0].jobId == jid then [] else [s[0]]) + WithoutJob(s[1..], jid)
  }

  /** A report that sets a status other than "pending" on job `jid`
      withdraws exactly that job from every agent's poll: the remaining
      jobs and their order are those of the poll before the report. */
  lemma {:induction false} PollAfterReport(ids: seq<string>, jobs: map<string, Job>, jid: string, job: Job, aid: string)
    requires forall k :: k in jobs ==> jobs[k].jobId == k
    requires jid in jobs && job.jobId == jid
    requires job.status != Pending
    ensures PendingFor(ids, jobs[jid := job], aid) == WithoutJob(PendingFor(ids, jobs, aid), jid)
    decreases |ids|
  {
    if ids != [] {
      PollAfterReport(ids[1..], jobs, jid, job, aid);
      var head := if ids[0] in jobs && IsPendingFor(jobs[ids[0]], aid) then [jobs[ids[0]]] else [];
      WithoutJobConcat(head, PendingFor(ids[1..], jobs, aid), jid);
    }
  }

  /** Dropping one job's records distributes over concatenation. */
  lemma {:induction false} WithoutJobConcat(a: seq<Job>, b: seq<Job>, jid: string)
    ensures WithoutJob(a + b, jid) == WithoutJob(a, jid) + WithoutJob(b, jid)
    decreases |a|
  {
    if a == [] {
      assert a + b == b;
    } else {
      assert (a + b)[0] == a[0];
      assert (a + b)[1..] == a[1..] + b;
      WithoutJobConcat(a[1..], b, jid);
    }
  }

  /** The status is stored verbatim, so a report that sets "pending" again
      puts the job back into its owner's poll. */
  lemma PendingReportRequeues(ids: seq<string>, jobs: map<string, Job>, jid: string, job: Job)
    requires jid in ids && job.status == Pending
    ensures job in PendingFor(ids, jobs[jid := job], job.agentId)
  {
    var i :| 0 <= i < |ids| && ids[i] == jid;
  }

  /** poll_jobs' accumulator loop: walk the job table in order and append
      each pending job of `aid`. */
  method CollectPending(ids: seq<string>, jobs: map<string, Job>, aid: string) returns (pending: seq<Job>)
    requires forall k :: k in ids ==> k in jobs
    ensures pending == PendingFor(ids, jobs, aid)
  {
    pending := [];
    for i := 0 to |ids|
      invariant pending == PendingFor(ids[..i], jobs, aid)
    {
      var job := jobs[ids[i]];
      PendingForSnoc(ids[..i], ids[i], jobs, aid);
      assert ids[..i + 1] == ids[..i] + [ids[i]];
      if job.agentId == aid && job.status == Pending {
        pending := pending + [job];
      }
    }
    assert ids[..|ids|] == ids;
  }

  /** A job that lets agent `aid` download the bundle `envToken`. */
  predicate Qualifies(job: Job, aid: string, envToken: string) {
    job.agentId == aid && job.status == Pending && job.envToken == Some(envToken)
  }

  /** download_env's derived authorisation: some pending job of the caller
      references the token. */
  ghost predicate MayDownload(jobs: map<string, Job>, aid: string, envToken: string) {
    exists jid :: jid in jobs && Qualifies(jobs[jid], aid, envToken)
  }

  /** download_env's ok-loop: scan the job table for a qualifying job and
      stop at the first one. */
  method HasQualifyingJob(ids: seq<string>, jobs: map<string, Job>, aid: string, envToken: string) returns (ok: bool)
    requires OrderedKeys(ids, jobs)
    ensures ok <==> MayDownload(jobs, aid, envToken)
  {
    ok := false;
    var i := 0;
    while i < |ids|
      invariant 0 <= i <= |ids|
      invariant forall j :: 0 <= j < i ==> !Qualifies(jobs[ids[j]], aid, envToken)
      invariant !ok
    {
      if Qualifies(jobs[ids[i]], aid, envToken) {
        ok := true;
        break;
      }
      i := i + 1;
    }
    if !ok {
      forall jid | jid in jobs
        ensures !Qualifies(jobs[jid], aid, envToken)
      {
        var j :| 0 <= j < |ids| && ids[j] == jid;
      }
    }
  }

  /** The whole of download_env: authenticate, then authorise (403) before
      looking the bundle up (404), then return the stored document. */
  ghost function Download(header: Option<string>, agentIds: seq<string>, agents: map<string, Agent>,
                          jobs: map<string, Job>, bundles: map<string, Payload>, envToken: string): (r: Result<Payload>)
    ensures r.Ok? <==> Authenticate(header, agentIds, agents).Ok?
                       && MayDownload(jobs, Authenticate(header, agentIds, agents).value, envToken)
                       && envToken in bundles
    ensures r.Ok? ==> r.value == bundles[envToken]
    ensures Authenticate(header, agentIds, agents).Ok?
            && !MayDownload(jobs, Authenticate(header, agentIds, agents).value, envToken)
            ==> r == Err(Forbidden("no job for this agent references this env token"))
    ensures r == Err(NotFound("env token not found"))
        <==> Authenticate(header, agentIds, agents).Ok?
             && MayDownload(jobs, Authenticate(header, agentIds, agents).value, envToken)
             && envToken !in bundles
  {
    match Authenticate(header, agentIds, agents)
    case Err(e) => Err(e)
    case Ok(aid) =>
      if !MayDownload(jobs, aid, envToken) then
        Err(Forbidden("no job for this agent references this env token"))
      else if envToken !in bundles then
        Err(NotFound("env token not found"))
      else
        Ok(bundles[envToken])
  }

  /** Once job `jid` leaves "pending", it no longer authorises any download:
      the caller needs another qualifying job. */
  lemma DownloadRevokedByReport(jobs: map<string, Job>, jid: string, job: Job, aid: string, envToken: string)
    requires jid in jobs && job.status != Pending
    ensures MayDownload(jobs[jid := job], aid, envToken)
        <==> exists k :: k in jobs && k != jid && Qualifies(jobs[k], aid, envToken)
  {
    if MayDownload(jobs[jid := job], aid, envToken) {
      var k :| k in jobs[jid := job] && Qualifies(jobs[jid := job][k], aid, envToken);
      assert k != jid && k in jobs;
    }
    if exists k :: k in jobs && k != jid && Qualifies(jobs[k], aid, envToken) {
      var k :| k in jobs && k != jid && Qualifies(jobs[k], aid, envToken);
      assert k in jobs[jid := job] && jobs[jid := job][k] == jobs[k];
    }
  }

  /** Upload then download: once an authorised caller's bundle is stored,
      download_env returns exactly the stored document; before that it
      answers 404. */
  lemma DownloadAfterUpload(header: Option<string>, agentIds: seq<string>, agents: map<string, Agent>,
                            jobs: map<string, Job>, bundles: map<string, Payload>, envToken: string, doc: Payload)
    requires Authenticate(header, agentIds, agents).Ok?
    requires MayDownload(jobs, Authenticate(header, agentIds, agents).value, envToken)
    ensures Download(header, agentIds, agents, jobs, bundles[envToken := doc], envToken) == Ok(doc)
    ensures envToken !in bundles ==>
      Download(header, agentIds, agents, jobs, bundles, envToken) == Err(NotFound("env token not found"))
  {
  }
}
