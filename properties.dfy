/** What one invocation of the lobby guarantees, stated over the dispatcher
    `Handlers.Handle`. */
module Properties {
  import opened Cosmwasm
  import opened StateTypes
  import opened Messages
  import opened Sequences
  import opened Registry
  import opened Handlers

  /** The operations that only the admin may perform. */
  predicate AdminOnly(msg: HandleMsg) {
    msg.UpdateRemoveTimeout? || msg.UpdateValidCodeId? || msg.UpdateStamper? || msg.UpdateJackpot? || msg.PassTheHatOn?
  }

  lemma InitialState(env: Env, msg: InitMsg)
    ensures Init(env, msg).admin == env.message.sender
    ensures Init(env, msg).contracts == []
    ensures Init(env, msg).removeAfter == 7200
    ensures Init(env, msg).stampAddr == msg.stampAddr && Init(env, msg).stampHash == msg.stampHash
    ensures Init(env, msg).gameCodeId == msg.gameCodeId && Init(env, msg).gameHash == msg.gameHash
    ensures Init(env, msg).jackpotAddr == msg.jackpotAddr && Init(env, msg).jackpotHash == msg.jackpotHash
  {
  }

  /** Every invocation is all-or-nothing: a failing one saves nothing. */
  lemma FailureSavesNothing(s: State, env: Env, msg: HandleMsg)
    ensures Handle(s, env, msg).result.Err? ==> Handle(s, env, msg).state == s
  {
  }

  /** Admission control: a registration is accepted exactly when its referrer
      is the lobby's own code hash; otherwise it fails and nothing changes. */
  lemma RegistrationAuthenticity(s: State, env: Env, address: HumanAddr, private: bool, tableLabel: string, referrer: string)
    ensures Handle(s, env, RegisteredCallback(address, private, tableLabel, referrer)).result.Ok? <==> referrer == env.contractCodeHash
    ensures referrer != env.contractCodeHash ==>
              Handle(s, env, RegisteredCallback(address, private, tableLabel, referrer)) == Outcome(s, Err(GenericErr(BAD_REFERRER)))
  {
  }

  /** An accepted registration saves the old registry, expired entries
      included, followed by the new entry stamped with the block time; no other
      field changes. */
  lemma RegistrationAppends(s: State, env: Env, address: HumanAddr, private: bool, tableLabel: string)
    ensures var o := Handle(s, env, RegisteredCallback(address, private, tableLabel, env.contractCodeHash));
            && o.result == Ok(DEFAULT_RESPONSE)
            && o.state == s.(contracts := o.state.contracts)
            && |o.state.contracts| == |s.contracts| + 1
            && o.state.contracts[..|s.contracts|] == s.contracts
            && o.state.contracts[|s.contracts|] == Contract(address, tableLabel, private, env.block.time)
  {
    var saved := s.contracts + [Contract(address, tableLabel, private, env.block.time)];
    assert saved[..|s.contracts|] == s.contracts;
  }

  /** Because the sweep after a registration is not saved, an entry that has
      already expired stays in the stored registry. */
  lemma RegistrationDoesNotSweep(s: State, env: Env, address: HumanAddr, private: bool, tableLabel: string, c: Contract)
    requires c in s.contracts && !Live(c, s.removeAfter, env.block.time)
    ensures c in Handle(s, env, RegisteredCallback(address, private, tableLabel, env.contractCodeHash)).state.contracts
    ensures c !in Handle(s, env, Refresh).state.contracts
  {
    RegistrationAppends(s, env, address, private, tableLabel);
  }

  /** A freshly registered entry survives a sweep at the same block time
      exactly when the timeout is positive. */
  lemma FreshEntrySurvivesSweep(s: State, env: Env, address: HumanAddr, private: bool, tableLabel: string)
    ensures var registered := Handle(s, env, RegisteredCallback(address, private, tableLabel, env.contractCodeHash)).state;
            var swept := Handle(registered, env, Refresh).state;
            swept.contracts == Retain(s.contracts, s.removeAfter, env.block.time) + (if s.removeAfter > 0 then [Contract(address, tableLabel, private, env.block.time)] else [])
  {
    var entry := Contract(address, tableLabel, private, env.block.time);
    var registered := s.(contracts := s.contracts + [entry]);
    assert Handle(s, env, RegisteredCallback(address, private, tableLabel, env.contractCodeHash)).state == registered;
    assert Handle(registered, env, Refresh).state.contracts == Retain(s.contracts + [entry], s.removeAfter, env.block.time);
    RetainSnoc(s.contracts, entry, s.removeAfter, env.block.time);
  }

  /** Refresh needs no authority, always succeeds, and saves the largest
      order-preserving subsequence of live entries; nothing else changes. */
  lemma RefreshSweeps(s: State, env: Env)
    ensures var o := Handle(s, env, Refresh);
            && o.result == Ok(DEFAULT_RESPONSE)
            && o.state == s.(contracts := o.state.contracts)
            && IsSubsequence(o.state.contracts, s.contracts)
            && (forall i :: 0 <= i < |o.state.contracts| ==> Live(o.state.contracts[i], s.removeAfter, env.block.time))
            && (forall c :: c in s.contracts && Live(c, s.removeAfter, env.block.time) ==> c in o.state.contracts)
            && (forall t :: IsSubsequence(t, s.contracts) && (forall i :: 0 <= i < |t| ==> Live(t[i], s.removeAfter, env.block.time))
                            ==> IsSubsequence(t, o.state.contracts))
  {
    RetainIsLargestAll(s.contracts, s.removeAfter, env.block.time);
  }

  lemma RefreshNeverLengthens(s: State, env: Env)
    ensures |Handle(s, env, Refresh).state.contracts| <= |s.contracts|
  {
    RetainIsSubsequence(s.contracts, s.removeAfter, env.block.time);
    SubsequenceNoLonger(Retain(s.contracts, s.removeAfter, env.block.time), s.contracts);
  }

  lemma {:induction false} RefreshIdempotent(s: State, env: Env)
    ensures Handle(Handle(s, env, Refresh).state, env, Refresh) == Handle(s, env, Refresh)
  {
    RetainIdempotent(s.contracts, s.removeAfter, env.block.time);
  }

  /** Two sweeps, the second no earlier than the first, do what the second
      does alone. */
  lemma {:induction false} RefreshLaterSubsumes(s: State, env1: Env, env2: Env)
    requires env1.block.time <= env2.block.time
    ensures Handle(Handle(s, env1, Refresh).state, env2, Refresh) == Handle(s, env2, Refresh)
  {
    RetainLater(s.contracts, s.removeAfter, env1.block.time, env2.block.time);
  }

  /** Admin gating: each privileged operation succeeds exactly when the sender
      is the admin; otherwise it fails with its message and nothing changes. */
  lemma AdminGate(s: State, env: Env, msg: HandleMsg)
    requires AdminOnly(msg)
    ensures Handle(s, env, msg).result.Ok? <==> env.message.sender == s.admin
    ensures env.message.sender != s.admin ==>
              Handle(s, env, msg) == Outcome(s, Err(GenericErr(if msg.UpdateJackpot? then JACKPOT_ADMIN_ONLY else ADMIN_ONLY)))
    ensures env.message.sender == s.admin ==> Handle(s, env, msg).result == Ok(DEFAULT_RESPONSE)
  {
  }

  /** A successful change of the trust pin empties the registry, whatever it
      held. */
  lemma TrustPinChangeClearsRegistry(s: State, env: Env, msg: HandleMsg)
    requires msg.UpdateValidCodeId? || msg.UpdateStamper?
    requires env.message.sender == s.admin
    ensures Handle(s, env, msg).state.contracts == []
  {
  }

  lemma UpdateValidCodeIdEffect(s: State, env: Env, newCodeId: U64, newHash: string)
    requires env.message.sender == s.admin
    ensures var t := Handle(s, env, UpdateValidCodeId(newCodeId, newHash)).state;
            && t.gameCodeId == newCodeId && t.gameHash == newHash && t.contracts == []
            && t.(gameCodeId := s.gameCodeId, gameHash := s.gameHash, contracts := s.contracts) == s
  {
  }

  /** As written, the stamper update puts the new stamper hash into `gameHash`
      and leaves `stampHash` as it was. */
  lemma UpdateStamperEffect(s: State, env: Env, newStampAddr: HumanAddr, newStampHash: string)
    requires env.message.sender == s.admin
    ensures var t := Handle(s, env, UpdateStamper(newStampAddr, newStampHash)).state;
            && t.stampAddr == newStampAddr && t.gameHash == newStampHash && t.stampHash == s.stampHash && t.contracts == []
            && t.(stampAddr := s.stampAddr, gameHash := s.gameHash, contracts := s.contracts) == s
  {
  }

  /** Consequence of the stamper quirk: tables created afterwards are requested
      with the stamper's hash as the game code hash, and still carry the old
      stamper hash. */
  lemma StamperHashReachesNewTables(s: State, env: Env, newStampAddr: HumanAddr, newStampHash: string,
                                    env2: Env, tableLabel: string, password: Option<string>, minBuy: U64, maxBuy: U64)
    requires env.message.sender == s.admin
    ensures var t := Handle(s, env, UpdateStamper(newStampAddr, newStampHash)).state;
            var m := Handle(t, env2, CreateNewTable(tableLabel, password, minBuy, maxBuy)).result.value.messages[0];
            && m.callbackCodeHash == newStampHash
            && m.msg.stampAddr == newStampAddr
            && m.msg.stampHash == s.stampHash
  {
  }

  /** The timeout, admin and jackpot updates change their own fields and
      nothing else; in particular the registry is kept. */
  lemma UpdateRemoveTimeoutEffect(s: State, env: Env, newTimeout: U64)
    requires env.message.sender == s.admin
    ensures var t := Handle(s, env, UpdateRemoveTimeout(newTimeout)).state;
            t.removeAfter == newTimeout && t.contracts == s.contracts && t.(removeAfter := s.removeAfter) == s
  {
  }

  /** The hat may be passed to any address; the new admin is not validated. */
  lemma PassTheHatOnEffect(s: State, env: Env, newAdmin: HumanAddr)
    requires env.message.sender == s.admin
    ensures var t := Handle(s, env, PassTheHatOn(newAdmin)).state;
            t.admin == newAdmin && t.contracts == s.contracts && t.(admin := s.admin) == s
  {
  }

  lemma UpdateJackpotEffect(s: State, env: Env, newJackpotAddr: HumanAddr, newJackpotHash: string)
    requires env.message.sender == s.admin
    ensures var t := Handle(s, env, UpdateJackpot(newJackpotAddr, newJackpotHash)).state;
            && t.jackpotAddr == newJackpotAddr && t.jackpotHash == newJackpotHash && t.contracts == s.contracts
            && t.(jackpotAddr := s.jackpotAddr, jackpotHash := s.jackpotHash) == s
  {
  }

  /** Creating a table changes nothing and requests exactly one instantiation
      of the pinned game code, calling back to this lobby. */
  lemma CreateNewTableEffect(s: State, env: Env, tableLabel: string, password: Option<string>, minBuy: U64, maxBuy: U64)
    ensures var o := Handle(s, env, CreateNewTable(tableLabel, password, minBuy, maxBuy));
            && o.state == s
            && o.result.Ok? && |o.result.value.messages| == 1
            && var m := o.result.value.messages[0];
            && m.codeId == s.gameCodeId && m.callbackCodeHash == s.gameHash
            && m.instanceLabel == tableLabel && m.send == []
            && m.msg.bg == 0 && m.msg.tableLabel == tableLabel
            && m.msg.callbackAddr == env.contract.address && m.msg.callbackHash == env.contractCodeHash
            && m.msg.stampAddr == s.stampAddr && m.msg.stampHash == s.stampHash
            && m.msg.jackpotAddr == s.jackpotAddr && m.msg.jackpotHash == s.jackpotHash
            && m.msg.password == password && m.msg.minBuy == minBuy && m.msg.maxBuy == maxBuy
  {
  }

  /** The two phases fit together: a table that calls back with the hash it was
      handed, to a lobby running the same code, is admitted; any other referrer
      is refused. */
  lemma CreatedTableCanRegister(s: State, env: Env, tableLabel: string, password: Option<string>, minBuy: U64, maxBuy: U64,
                                later: State, env2: Env, child: HumanAddr, private: bool, regLabel: string, referrer: string)
    requires env2.contractCodeHash == env.contractCodeHash
    ensures var m := Handle(s, env, CreateNewTable(tableLabel, password, minBuy, maxBuy)).result.value.messages[0];
            Handle(later, env2, RegisteredCallback(child, private, regLabel, referrer)).result.Ok? <==> referrer == m.msg.callbackHash
  {
  }

  /** The listing is the stored registry verbatim: no sweep, same order. */
  lemma QueryIsVerbatim(s: State)
    ensures Query(s, GetList).contracts == s.contracts
  {
  }

  // Scenarios.

  const SCENARIO_ENTRY := Contract("table", "t", false, 1000)

  function ScenarioState(): State {
    State("admin", [SCENARIO_ENTRY], 7200, "stamp", "stamp-hash", 1, "game-hash", "jackpot", "jackpot-hash")
  }

  function ScenarioEnv(sender: HumanAddr, time: U64): Env {
    Env(BlockInfo(time), MessageInfo(sender), ContractInfo("lobby"), "self-hash")
  }

  lemma RefreshScenarios()
    ensures Handle(ScenarioState(), ScenarioEnv("anyone", 9000), Refresh).state.contracts == []
    ensures Handle(ScenarioState(), ScenarioEnv("anyone", 8000), Refresh).state.contracts == [SCENARIO_ENTRY]
  {
    assert [SCENARIO_ENTRY][1..] == [];
  }

  lemma NonAdminTimeoutScenario()
    ensures Handle(ScenarioState(), ScenarioEnv("mallory", 0), UpdateRemoveTimeout(500)).result.Err?
    ensures Handle(ScenarioState(), ScenarioEnv("mallory", 0), UpdateRemoveTimeout(500)).state.removeAfter == 7200
  {
  }

  lemma WrongReferrerScenario()
    ensures var o := Handle(ScenarioState(), ScenarioEnv("table", 0), RegisteredCallback("A", false, "t", "wrong-hash"));
            o.result.Err? && |o.state.contracts| == 1
  {
  }
}
