/** The pieces of the host framework (cosmwasm-std as used by the lobby) that the
    handlers read or produce: the invocation environment, results and errors,
    and the outbound instantiate message. */
module Cosmwasm {

  /** Rust's u64. Sums of two such values are taken in `int`, i.e. without
      wrap-around. */
  type U64 = x: int | 0 <= x < 0x1_0000_0000_0000_0000

  /** An account or contract address, compared as a plain string. */
  type HumanAddr = string

  datatype Option<+T> = None | Some(value: T)

  /** The only error the lobby raises is a generic error with a message. */
  datatype StdError = GenericErr(msg: string)

  datatype StdResult<+T> = Ok(value: T) | Err(error: StdError)

  /** The parts of the invocation environment the lobby reads. */
  datatype BlockInfo = BlockInfo(time: U64)
  datatype MessageInfo = MessageInfo(sender: HumanAddr)
  datatype ContractInfo = ContractInfo(address: HumanAddr)
  datatype Env = Env(block: BlockInfo, message: MessageInfo, contract: ContractInfo, contractCodeHash: string)

  datatype Coin = Coin(denom: string, amount: nat)
}
