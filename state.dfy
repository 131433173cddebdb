/** The persisted record of the lobby and the registry entries it holds. */
module StateTypes {
  import opened Cosmwasm

  /** One registered child table; never updated once created. */
  datatype Contract = Contract(address: HumanAddr, tableLabel: string, private: bool, createdAt: U64)

  /** The singleton saved under the `config` key: the fields `init` writes. */
  datatype State = State(
    admin: HumanAddr,
    contracts: seq<Contract>,
    removeAfter: U64,
    stampAddr: HumanAddr,
    stampHash: string,
    gameCodeId: U64,
    gameHash: string,
    jackpotAddr: HumanAddr,
    jackpotHash: string)
}
