/** One heartbeat pass against the agent that keeps the checks (consul.go). */
module SelfHeal {
  import opened Types
  import opened Codec

  /** A check the agent knows, under the registration that created it. */
  datatype AgentCheck = AgentCheck(registration: Registration, passing: bool)

  /** The agent's checks by check ID. */
  type Agent = map<string, AgentCheck>

  datatype Reply = Done | UnknownCheck | CallFailed

  /** Marks a check passing; the call may also fail on its way (`reached` is false). */
  method UpdateTTL(agent: Agent, checkId: string, reached: bool) returns (after: Agent, reply: Reply)
    ensures reply == if !reached then CallFailed else if checkId in agent then Done else UnknownCheck
    ensures after == if reply.Done? then agent[checkId := agent[checkId].(passing := true)] else agent
  {
    if !reached {
      return agent, CallFailed;
    }
    if checkId !in agent {
      return agent, UnknownCheck;
    }
    return agent[checkId := agent[checkId].(passing := true)], Done;
  }

  /** (Re-)creates a registration's check, critical until its first pass. */
  method ServiceRegister(agent: Agent, reg: Registration, reached: bool) returns (after: Agent, ok: bool)
    ensures ok == reached
    ensures after == if reached && reg.check.Some? && reg.check.value.TtlCheck?
                     then agent[reg.check.value.checkId := AgentCheck(reg, false)] else agent
  {
    if reached && reg.check.Some? && reg.check.value.TtlCheck? {
      return agent[reg.check.value.checkId := AgentCheck(reg, false)], reached;
    }
    return agent, reached;
  }

  /** The pass of the heartbeat that was started for a TTL service s: when every call it
      makes gets through, the service's check is passing afterwards, under the
      registration it had or, if the agent had lost it, under that of s again. It never
      touches another check and never makes one worse. */
  method Pass(agent: Agent, s: Service, reached1: bool, reached2: bool, reached3: bool) returns (after: Agent)
    requires s.healthCheck.Some? && s.healthCheck.value.ttl != NoTtl
    ensures var id := TtlCheckId(s.id);
            && (reached1 && reached2 && reached3 ==>
                  id in after && after[id] == AgentCheck(if id in agent then agent[id].registration else RegistrationOf(s), true))
            && (id in after && id !in agent ==> after[id].registration == RegistrationOf(s))
            && (id in agent ==> id in after && after[id].registration == agent[id].registration
                                && (agent[id].passing ==> after[id].passing))
    ensures forall k :: k != TtlCheckId(s.id) ==> (k in after <==> k in agent) && (k in agent ==> after[k] == agent[k])
  {
    var reg := BuildRegistration(s);
    var checkId := TtlCheckId(reg.entry.id);
    var reply;
    after, reply := UpdateTTL(agent, checkId, reached1);
    if reply != UnknownCheck {
      return;
    }
    var ok;
    after, ok := ServiceRegister(after, reg, reached2);
    if !ok {
      return;
    }
    after, reply := UpdateTTL(after, checkId, reached3);
  }
}
