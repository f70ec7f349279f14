/** The rows of the two persisted tables (agents.json and jobs.json) and the
    shape of a table: a Python dict, i.e. a map together with the order in
    which its keys were first inserted. */
module Records {
  import opened Http

  /** An env bundle's stored JSON document, kept as its text. */
  type Payload = string

  /** One entry of the agent table (orchestrator.py:204-213). */
  datatype Agent = Agent(
    agentId: string,
    token: string,
    hostname: string,
    ip: string,
    sshPubkey: string,
    meta: map<string, string>,
    created: int,
    lastSeen: int)

  /** The "output" key of a job: absent until the first report, then the
      reported value, which may be null. */
  datatype JobOutput = NoOutput | Output(text: Option<string>)

  /** One entry of the job table (orchestrator.py:244-253, 308-310). */
  datatype Job = Job(
    jobId: string,
    agentId: string,
    args: seq<string>,
    isSpa: bool,
    envToken: Option<string>,
    status: string,
    output: JobOutput,
    created: int,
    updated: int)

  /** The only status with a meaning to the protocol. */
  const Pending: string := "pending"

  /** `ids` lists the keys of `m` in insertion order, each exactly once. */
  ghost predicate OrderedKeys<V>(ids: seq<string>, m: map<string, V>) {
    && (forall i, j :: 0 <= i < j < |ids| ==> ids[i] != ids[j])
    && (forall k :: k in m <==> k in ids)
  }

  /** The agent table: every row is stored under its own non-empty id, and
      no two agents share a token. */
  ghost predicate AgentTable(ids: seq<string>, agents: map<string, Agent>) {
    && OrderedKeys(ids, agents)
    && (forall aid :: aid in agents ==> agents[aid].agentId == aid && aid != "" && agents[aid].token != "")
    && (forall a, b :: a in agents && b in agents && a != b ==> agents[a].token != agents[b].token)
  }

  /** The job table: every row is stored under its own id and belongs to a
      registered agent. */
  ghost predicate JobTable(ids: seq<string>, jobs: map<string, Job>, agents: map<string, Agent>) {
    && OrderedKeys(ids, jobs)
    && (forall jid :: jid in jobs ==> jobs[jid].jobId == jid && jobs[jid].agentId in agents)
  }

  /** Appending a row under a fresh key keeps a table ordered. */
  lemma OrderedKeysAppend<V>(ids: seq<string>, m: map<string, V>, k: string, v: V)
    requires OrderedKeys(ids, m) && k !in m
    ensures OrderedKeys(ids + [k], m[k := v])
  {
    forall i, j | 0 <= i < j < |ids + [k]|
      ensures (ids + [k])[i] != (ids + [k])[j]
    {
      if j == |ids| {
        assert (ids + [k])[i] == ids[i];
      }
    }
  }

  /** Registering an agent under a fresh id and a fresh token keeps both
      tables well formed. */
  lemma AgentTableAdd(ids: seq<string>, agents: map<string, Agent>, jobIds: seq<string>, jobs: map<string, Job>,
                      agent: Agent)
    requires AgentTable(ids, agents) && JobTable(jobIds, jobs, agents)
    requires agent.agentId != "" && agent.agentId !in agents && agent.token != ""
    requires forall aid :: aid in agents ==> agents[aid].token != agent.token
    ensures AgentTable(ids + [agent.agentId], agents[agent.agentId := agent])
    ensures JobTable(jobIds, jobs, agents[agent.agentId := agent])
  {
    OrderedKeysAppend(ids, agents, agent.agentId, agent);
  }

  /** Changing an agent's row without touching its id or token (last_seen)
      keeps both tables well formed. */
  lemma AgentTableTouch(ids: seq<string>, agents: map<string, Agent>, jobIds: seq<string>, jobs: map<string, Job>,
                        aid: string, agent: Agent)
    requires AgentTable(ids, agents) && JobTable(jobIds, jobs, agents)
    requires aid in agents && agent.agentId == aid && agent.token == agents[aid].token
    ensures AgentTable(ids, agents[aid := agent])
    ensures JobTable(jobIds, jobs, agents[aid := agent])
  {
  }

  /** Adding a job under a fresh id for a registered agent keeps the job
      table well formed. */
  lemma JobTableAdd(ids: seq<string>, jobs: map<string, Job>, agents: map<string, Agent>, job: Job)
    requires JobTable(ids, jobs, agents)
    requires job.jobId !in jobs && job.agentId in agents
    ensures JobTable(ids + [job.jobId], jobs[job.jobId := job], agents)
  {
    OrderedKeysAppend(ids, jobs, job.jobId, job);
  }

  /** Rewriting a job's row with the same id and owner keeps the job table
      well formed. */
  lemma JobTableUpdate(ids: seq<string>, jobs: map<string, Job>, agents: map<string, Agent>, job: Job)
    requires JobTable(ids, jobs, agents)
    requires job.jobId in jobs && job.agentId in agents
    ensures JobTable(ids, jobs[job.jobId := job], agents)
  {
  }
}
