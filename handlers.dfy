/** The lobby's entry points as functions of an explicit snapshot: each handler
    maps the stored state and the environment to the state it saves and the
    response it returns. A handler that fails saves nothing, so its outcome
    carries the old state. */
module Handlers {
  import opened Cosmwasm
  import opened StateTypes
  import opened Messages
  import opened Registry

  /** The state persisted after one invocation, and its result. */
  datatype Outcome = Outcome(state: State, result: StdResult<HandleResponse>)

  const DEFAULT_REMOVE_AFTER: U64 := 2 * 60 * 60

  const ADMIN_ONLY := "Only the contract admin can do this"
  const JACKPOT_ADMIN_ONLY := "Only the admin can update the jackpot address"
  const BAD_REFERRER := "referrer is not the contract hash"

  /** The state `init` saves: the creator is the admin, the registry is empty
      and the timeout is two hours. */
  function Init(env: Env, msg: InitMsg): State {
    State(
      admin := env.message.sender,
      contracts := [],
      removeAfter := DEFAULT_REMOVE_AFTER,
      stampAddr := msg.stampAddr,
      stampHash := msg.stampHash,
      gameCodeId := msg.gameCodeId,
      gameHash := msg.gameHash,
      jackpotAddr := msg.jackpotAddr,
      jackpotHash := msg.jackpotHash)
  }

  /** The admin guard: succeeds exactly when the sender is the stored admin. */
  function RequireAdmin(env: Env, state: State): (r: StdResult<bool>)
    ensures r.Ok? <==> env.message.sender == state.admin
    ensures r.Ok? ==> r.value
    ensures r.Err? ==> r.error == GenericErr(ADMIN_ONLY)
  {
    if env.message.sender != state.admin then Err(GenericErr(ADMIN_ONLY)) else Ok(true)
  }

  /** The dispatcher: one handler per message variant. */
  function Handle(state: State, env: Env, msg: HandleMsg): Outcome {
    match msg
    case Refresh => TryRefresh(state, env)
    case CreateNewTable(tableLabel, password, minBuy, maxBuy) => TryCreateNewTable(state, env, tableLabel, password, minBuy, maxBuy)
    case UpdateRemoveTimeout(newTimeout) => TryUpdateRemovalTimeout(state, env, newTimeout)
    case UpdateValidCodeId(newCodeId, newHash) => TryUpdateValidCodeId(state, env, newCodeId, newHash)
    case UpdateStamper(newStampAddr, newStampHash) => TryUpdateStamper(state, env, newStampAddr, newStampHash)
    case UpdateJackpot(newJackpotAddr, newJackpotHash) => TryUpdateJackpot(state, env, newJackpotAddr, newJackpotHash)
    case PassTheHatOn(newAdmin) => TryPassingTheAdminHat(state, env, newAdmin)
    case RegisteredCallback(address, private, tableLabel, referrer) => TryRegisterCallback(state, env, address, private, tableLabel, referrer)
  }

  /** Admin only, with its own inline check and message; does not clear the
      registry. */
  function TryUpdateJackpot(state: State, env: Env, newJackpotAddr: HumanAddr, newJackpotHash: string): Outcome {
    if state.admin != env.message.sender then Outcome(state, Err(GenericErr(JACKPOT_ADMIN_ONLY)))
    else Outcome(state.(jackpotAddr := newJackpotAddr, jackpotHash := newJackpotHash), Ok(DEFAULT_RESPONSE))
  }

  /** A child table registers itself; it is admitted only when it presents the
      lobby's own code hash. The entry is appended and saved; the sweep that
      follows acts on the in-memory copy only and is never saved. */
  function TryRegisterCallback(state: State, env: Env, address: HumanAddr, private: bool, tableLabel: string, referrer: string): Outcome {
    if referrer != env.contractCodeHash then Outcome(state, Err(GenericErr(BAD_REFERRER)))
    else
      var saved := state.(contracts := state.contracts + [Contract(address, tableLabel, private, env.block.time)]);
      Outcome(saved, Ok(DEFAULT_RESPONSE))
  }

  /** Anyone may sweep the registry; the swept state is saved. */
  function TryRefresh(state: State, env: Env): Outcome {
    Outcome(CleanOldContracts(state, env), Ok(DEFAULT_RESPONSE))
  }

  /** The child's init message: trust parameters from the state, the lobby's own
      address and code hash as the callback, the caller's table settings passed
      through unchecked. */
  function GameInitMsg(state: State, env: Env, tableLabel: string, password: Option<string>, minBuy: U64, maxBuy: U64): GameContractInitMsg {
    GameContractInitMsg(
      bg := 0,
      password := password,
      tableLabel := tableLabel,
      stampAddr := state.stampAddr,
      stampHash := state.stampHash,
      callbackAddr := env.contract.address,
      callbackHash := env.contractCodeHash,
      minBuy := minBuy,
      maxBuy := maxBuy,
      jackpotAddr := state.jackpotAddr,
      jackpotHash := state.jackpotHash)
  }

  /** Emits one instantiate message for the pinned game code, without funds;
      saves nothing. */
  function TryCreateNewTable(state: State, env: Env, tableLabel: string, password: Option<string>, minBuy: U64, maxBuy: U64): Outcome {
    var initMsg := GameInitMsg(state, env, tableLabel, password, minBuy, maxBuy);
    var newGameMsg := Instantiate(state.gameCodeId, state.gameHash, initMsg, [], tableLabel);
    Outcome(state, Ok(HandleResponse([newGameMsg])))
  }

  function TryUpdateRemovalTimeout(state: State, env: Env, newTimeout: U64): Outcome {
    match RequireAdmin(env, state)
    case Err(e) => Outcome(state, Err(e))
    case Ok(_) => Outcome(state.(removeAfter := newTimeout), Ok(DEFAULT_RESPONSE))
  }

  /** Sets the stamper address and, as written, stores the new stamper hash in
      `gameHash`; clears the registry. */
  function TryUpdateStamper(state: State, env: Env, newStampAddr: HumanAddr, newStampHash: string): Outcome {
    match RequireAdmin(env, state)
    case Err(e) => Outcome(state, Err(e))
    case Ok(_) => Outcome(state.(stampAddr := newStampAddr, gameHash := newStampHash, contracts := []), Ok(DEFAULT_RESPONSE))
  }

  /** Re-pins the game code and clears the registry. */
  function TryUpdateValidCodeId(state: State, env: Env, newCodeId: U64, newHash: string): Outcome {
    match RequireAdmin(env, state)
    case Err(e) => Outcome(state, Err(e))
    case Ok(_) => Outcome(state.(gameCodeId := newCodeId, gameHash := newHash, contracts := []), Ok(DEFAULT_RESPONSE))
  }

  function TryPassingTheAdminHat(state: State, env: Env, newHat: HumanAddr): Outcome {
    match RequireAdmin(env, state)
    case Err(e) => Outcome(state, Err(e))
    case Ok(_) => Outcome(state.(admin := newHat), Ok(DEFAULT_RESPONSE))
  }

  /** The query dispatcher. */
  function Query(state: State, msg: QueryMsg): ListResponse {
    match msg
    case GetList => QueryList(state)
  }

  function QueryList(state: State): ListResponse {
    ListResponse(state.contracts)
  }
}
