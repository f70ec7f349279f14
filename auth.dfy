/** The two credential checks: the shared admin secret (require_admin) and
    the per-agent bearer token, looked up by a linear scan of the agent
    table in insertion order (orchestrator.py:265-274, 292-301, 350-359). */
module Auth {
  import opened Http
  import opened Records

  /** require_admin (orchestrator.py:70-73): when ADMIN_API_TOKEN is set to a
      non-empty secret, the X-ADMIN-TOKEN header must equal it; otherwise
      every caller is admitted. */
  function RequireAdmin(configured: Option<string>, header: Option<string>): (r: Result<()>)
    ensures r.Ok? <==> configured.None? || configured.value == "" || header == configured
    ensures r.Err? ==> r.error == Forbidden("invalid admin token")
  {
    if configured.Some? && configured.value != "" then
      if header.None? || header.value == "" || header.value != configured.value then
        Err(Forbidden("invalid admin token"))
      else
        Ok(())
    else
      Ok(())
  }

  /** The agent stored under `aid` carries `token` (a.get("token") == x_agent_token). */
  predicate HasToken(agents: map<string, Agent>, aid: string, token: string) {
    aid in agents && agents[aid].token == token
  }

  /** The position, in table order, of the first agent whose token is
      `token`; |ids| when there is none. */
  function FirstMatchIndex(ids: seq<string>, agents: map<string, Agent>, token: string): (i: nat)
    ensures i <= |ids|
    ensures i < |ids| ==> HasToken(agents, ids[i], token)
    ensures forall j :: 0 <= j < i ==> !HasToken(agents, ids[j], token)
    decreases |ids|
  {
    if ids == [] then 0
    else if HasToken(agents, ids[0], token) then 0
    else 1 + FirstMatchIndex(ids[1..], agents, token)
  }

  /** Agent authentication as the handlers do it: a missing header is
      refused, then the first agent whose token equals the header wins, and
      an empty or missing agent id is refused as an invalid token. */
  function Authenticate(header: Option<string>, ids: seq<string>, agents: map<string, Agent>): (r: Result<string>)
    ensures header.None? || header.value == "" ==> r == Err(Forbidden("missing agent token"))
    ensures r.Err? ==> r.error in {Forbidden("missing agent token"), Forbidden("invalid agent token")}
    ensures r.Ok? ==> header.Some? && r.value != "" && r.value in ids && HasToken(agents, r.value, header.value)
    ensures header.Some? && header.value != "" && (forall j :: 0 <= j < |ids| ==> !HasToken(agents, ids[j], header.value))
      ==> r == Err(Forbidden("invalid agent token"))
  {
    if header.None? || header.value == "" then
      Err(Forbidden("missing agent token"))
    else
      var i := FirstMatchIndex(ids, agents, header.value);
      if i == |ids| || ids[i] == "" then Err(Forbidden("invalid agent token")) else Ok(ids[i])
  }

  /** "First match wins": the authenticated agent is the earliest agent, in
      table order, that carries the presented token. */
  lemma AuthenticateYieldsFirstMatch(header: Option<string>, ids: seq<string>, agents: map<string, Agent>, aid: string)
    requires Authenticate(header, ids, agents) == Ok(aid)
    ensures header.Some? && header.value != ""
    ensures exists i :: 0 <= i < |ids| && ids[i] == aid &&
                        forall j :: 0 <= j < i ==> !HasToken(agents, ids[j], header.value)
  {
    var i := FirstMatchIndex(ids, agents, header.value);
    assert ids[i] == aid;
  }

  /** In a well-formed agent table, where tokens are unique, a request
      authenticates as `aid` exactly when it presents aid's token. */
  lemma AuthenticateIff(header: Option<string>, ids: seq<string>, agents: map<string, Agent>, aid: string)
    requires AgentTable(ids, agents)
    ensures Authenticate(header, ids, agents) == Ok(aid)
      <==> header.Some? && header.value != "" && HasToken(agents, aid, header.value)
  {
    if header.Some? && header.value != "" && HasToken(agents, aid, header.value) {
      var k :| 0 <= k < |ids| && ids[k] == aid;
      var i := FirstMatchIndex(ids, agents, header.value);
      assert i <= k;
      assert ids[i] in agents && agents[ids[i]].token == agents[aid].token;
    }
  }

  /** In a well-formed agent table every agent's own token authenticates it. */
  lemma EveryAgentAuthenticates(ids: seq<string>, agents: map<string, Agent>)
    requires AgentTable(ids, agents)
    ensures forall aid :: aid in agents ==> Authenticate(Some(agents[aid].token), ids, agents) == Ok(aid)
  {
    forall aid | aid in agents
      ensures Authenticate(Some(agents[aid].token), ids, agents) == Ok(aid)
    {
      AuthenticateIff(Some(agents[aid].token), ids, agents, aid);
    }
  }

  /** The token-lookup loop shared by poll_jobs, report and download_env:
      scan the table in order and stop at the first agent with the token. */
  method FindAgentByToken(header: Option<string>, ids: seq<string>, agents: map<string, Agent>)
    returns (r: Result<string>)
    ensures r == Authenticate(header, ids, agents)
  {
    if header.None? || header.value == "" {
      return Err(Forbidden("missing agent token"));
    }
    var token := header.value;
    var found: Option<string> := None;
    var i := 0;
    while i < |ids|
      invariant 0 <= i <= |ids|
      invariant forall j :: 0 <= j < i ==> !HasToken(agents, ids[j], token)
      invariant found.None?
    {
      if ids[i] in agents && agents[ids[i]].token == token {
        found := Some(ids[i]);
        break;
      }
      i := i + 1;
    }
    ghost var first := FirstMatchIndex(ids, agents, token);
    assert found.Some? ==> i < |ids| && found.value == ids[i] && first == i;
    assert found.None? ==> first == |ids|;
    if found.None? || found.value == "" {
      r := Err(Forbidden("invalid agent token"));
    } else {
      r := Ok(found.value);
    }
  }
}
