/** The deployed lobby: its storage holds the one `config` record, and every
    entry point loads it, changes the loaded copy field by field and saves it
    back. Each method is proved to save exactly the state, and return exactly
    the result, that the corresponding function of `Handlers` describes. */
module Lobby {
  import opened Cosmwasm
  import opened StateTypes
  import opened Messages
  import opened Registry
  import H = Handlers

  class Lobby {
    /** The record stored under the `config` key. */
    var config: State

    constructor Init(env: Env, msg: InitMsg)
      ensures config == H.Init(env, msg)
    {
      var state := State(
        admin := env.message.sender,
        contracts := [],
        removeAfter := 2 * 60 * 60,
        stampAddr := msg.stampAddr,
        stampHash := msg.stampHash,
        gameCodeId := msg.gameCodeId,
        gameHash := msg.gameHash,
        jackpotAddr := msg.jackpotAddr,
        jackpotHash := msg.jackpotHash);
      config := state;
    }

    method Handle(env: Env, msg: HandleMsg) returns (r: StdResult<HandleResponse>)
      modifies this
      ensures H.Outcome(config, r) == H.Handle(old(config), env, msg)
    {
      match msg
      case Refresh =>
        r := TryRefresh(env);
      case CreateNewTable(tableLabel, password, minBuy, maxBuy) =>
        r := TryCreateNewTable(env, tableLabel, password, minBuy, maxBuy);
      case UpdateRemoveTimeout(newTimeout) =>
        r := TryUpdateRemovalTimeout(env, newTimeout);
      case UpdateValidCodeId(newCodeId, newHash) =>
        r := TryUpdateValidCodeId(env, newCodeId, newHash);
      case UpdateStamper(newStampAddr, newStampHash) =>
        r := TryUpdateStamper(env, newStampAddr, newStampHash);
      case UpdateJackpot(newJackpotAddr, newJackpotHash) =>
        r := TryUpdateJackpot(env, newJackpotAddr, newJackpotHash);
      case PassTheHatOn(newAdmin) =>
        r := TryPassingTheAdminHat(env, newAdmin);
      case RegisteredCallback(address, private, tableLabel, referrer) =>
        r := TryRegisterCallback(env, address, private, tableLabel, referrer);
    }

    method TryUpdateJackpot(env: Env, newJackpotAddr: HumanAddr, newJackpotHash: string) returns (r: StdResult<HandleResponse>)
      modifies this
      ensures H.Outcome(config, r) == H.TryUpdateJackpot(old(config), env, newJackpotAddr, newJackpotHash)
    {
      var state := config;
      if state.admin != env.message.sender {
        return Err(GenericErr(H.JACKPOT_ADMIN_ONLY));
      }
      state := state.(jackpotAddr := newJackpotAddr);
      state := state.(jackpotHash := newJackpotHash);
      config := state;
      r := Ok(DEFAULT_RESPONSE);
    }

    method TryRegisterCallback(env: Env, address: HumanAddr, private: bool, tableLabel: string, referrer: string)
      returns (r: StdResult<HandleResponse>)
      modifies this
      ensures H.Outcome(config, r) == H.TryRegisterCallback(old(config), env, address, private, tableLabel, referrer)
    {
      var state := config;
      if referrer != env.contractCodeHash {
        return Err(GenericErr(H.BAD_REFERRER));
      }
      state := state.(contracts := state.contracts + [Contract(address, tableLabel, private, env.block.time)]);
      config := state;
      // The sweep runs on the loaded copy after it has been saved.
      state := CleanOldContracts(state, env);
      r := Ok(DEFAULT_RESPONSE);
    }

    method TryRefresh(env: Env) returns (r: StdResult<HandleResponse>)
      modifies this
      ensures H.Outcome(config, r) == H.TryRefresh(old(config), env)
    {
      var state := config;
      state := CleanOldContracts(state, env);
      config := state;
      r := Ok(DEFAULT_RESPONSE);
    }

    method TryCreateNewTable(env: Env, tableLabel: string, password: Option<string>, minBuy: U64, maxBuy: U64)
      returns (r: StdResult<HandleResponse>)
      ensures H.Outcome(config, r) == H.TryCreateNewTable(config, env, tableLabel, password, minBuy, maxBuy)
    {
      var state := config;
      var newGameInstantiation := H.GameInitMsg(state, env, tableLabel, password, minBuy, maxBuy);
      var newGameMsg := Instantiate(state.gameCodeId, state.gameHash, newGameInstantiation, [], tableLabel);
      r := Ok(HandleResponse([newGameMsg]));
    }

    method TryUpdateRemovalTimeout(env: Env, newTimeout: U64) returns (r: StdResult<HandleResponse>)
      modifies this
      ensures H.Outcome(config, r) == H.TryUpdateRemovalTimeout(old(config), env, newTimeout)
    {
      var state := config;
      var guard := H.RequireAdmin(env, state);
      if guard.Err? {
        return Err(guard.error);
      }
      state := state.(removeAfter := newTimeout);
      config := state;
      r := Ok(DEFAULT_RESPONSE);
    }

    method TryUpdateStamper(env: Env, newStampAddr: HumanAddr, newStampHash: string) returns (r: StdResult<HandleResponse>)
      modifies this
      ensures H.Outcome(config, r) == H.TryUpdateStamper(old(config), env, newStampAddr, newStampHash)
    {
      var state := config;
      var guard := H.RequireAdmin(env, state);
      if guard.Err? {
        return Err(guard.error);
      }
      state := state.(stampAddr := newStampAddr);
      state := state.(gameHash := newStampHash);
      state := state.(contracts := []);
      config := state;
      r := Ok(DEFAULT_RESPONSE);
    }

    method TryUpdateValidCodeId(env: Env, newCodeId: U64, newHash: string) returns (r: StdResult<HandleResponse>)
      modifies this
      ensures H.Outcome(config, r) == H.TryUpdateValidCodeId(old(config), env, newCodeId, newHash)
    {
      var state := config;
      var guard := H.RequireAdmin(env, state);
      if guard.Err? {
        return Err(guard.error);
      }
      state := state.(gameCodeId := newCodeId);
      state := state.(gameHash := newHash);
      state := state.(contracts := []);
      config := state;
      r := Ok(DEFAULT_RESPONSE);
    }

    method TryPassingTheAdminHat(env: Env, newHat: HumanAddr) returns (r: StdResult<HandleResponse>)
      modifies this
      ensures H.Outcome(config, r) == H.TryPassingTheAdminHat(old(config), env, newHat)
    {
      var state := config;
      var guard := H.RequireAdmin(env, state);
      if guard.Err? {
        return Err(guard.error);
      }
      state := state.(admin := newHat);
      config := state;
      r := Ok(DEFAULT_RESPONSE);
    }

    /** Returns the stored registry verbatim, expired entries included. */
    method Query(msg: QueryMsg) returns (r: ListResponse)
      ensures r == H.Query(config, msg)
      ensures r.contracts == config.contracts
    {
      match msg
      case GetList =>
        var state := config;
        r := ListResponse(state.contracts);
    }
  }
}
