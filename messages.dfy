/** The messages the lobby accepts and emits, with the fields the handlers use. */
module Messages {
  import opened Cosmwasm
  import opened StateTypes

  datatype InitMsg = InitMsg(
    stampAddr: HumanAddr,
    stampHash: string,
    gameCodeId: U64,
    gameHash: string,
    jackpotAddr: HumanAddr,
    jackpotHash: string)

  /** The eight handle operations, one variant per arm of the dispatcher. */
  datatype HandleMsg =
    | Refresh
    | CreateNewTable(tableLabel: string, password: Option<string>, minBuy: U64, maxBuy: U64)
    | UpdateRemoveTimeout(newTimeout: U64)
    | UpdateValidCodeId(newCodeId: U64, newHash: string)
    | UpdateStamper(newStampAddr: HumanAddr, newStampHash: string)
    | UpdateJackpot(newJackpotAddr: HumanAddr, newJackpotHash: string)
    | PassTheHatOn(newAdmin: HumanAddr)
    | RegisteredCallback(address: HumanAddr, private: bool, tableLabel: string, referrer: string)

  datatype QueryMsg = GetList

  datatype ListResponse = ListResponse(contracts: seq<Contract>)

  /** The init message of a child game table. */
  datatype GameContractInitMsg = GameContractInitMsg(
    bg: nat,
    password: Option<string>,
    tableLabel: string,
    stampAddr: HumanAddr,
    stampHash: string,
    callbackAddr: HumanAddr,
    callbackHash: string,
    minBuy: U64,
    maxBuy: U64,
    jackpotAddr: HumanAddr,
    jackpotHash: string)

  /** A request to the host to instantiate code `codeId` (whose hash must be
      `callbackCodeHash`) with `msg`, funded with `send`. */
  datatype CosmosMsg = Instantiate(codeId: U64, callbackCodeHash: string, msg: GameContractInitMsg, send: seq<Coin>, instanceLabel: string)

  /** The handle result; in this contract `log` is always empty and `data` is
      always `None`, so only the messages are kept. */
  datatype HandleResponse = HandleResponse(messages: seq<CosmosMsg>)

  const DEFAULT_RESPONSE := HandleResponse([])
}
