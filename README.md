# Phonebook lobby: a verified model of the registry state machine

The lobby is a Secret Network (CosmWasm) contract. It spawns poker tables ("games"), and each table later calls back to register itself. The lobby keeps one persisted `State` record:
- the admin;
- the trust parameters for spawning: the game code id and hash, and the stamper and jackpot contract references;
- `remove_after`, the expiry timeout;
- `contracts`, the registry of tables, in registration order.

Each of eight handle operations maps the stored state, the invocation environment (sender, block time, own address, own code hash) and the message to a saved state and a response, or fails and saves nothing. One query lists the registry.

The model has these layers:

- `Cosmwasm`, `StateTypes`, `Messages`: the host types the handlers use (`U64`, `Env`, `StdResult`, the instantiate message), the `State` and `Contract` records, and the init, handle and query messages. `State`'s fields are the ones `init` writes. The handle variants are the arms of the dispatcher.
- `Sequences`, `Registry`: the expiry sweep, `clean_old_contracts`. It is the filter `Retain`, which keeps the entries with `createdAt + removeAfter > now`. The lemmas prove it is the largest order-preserving subsequence of live entries. They also prove it is idempotent, that a later sweep subsumes an earlier one, and that it distributes over concatenation.
- `Handlers`: every function of `contract.rs`, written as a function of an explicit snapshot. The result is an `Outcome` holding the state that is saved and the response. This includes `init`, the dispatcher `handle`, each `try_*` handler, `require_admin`, `query` and `query_list`.
- `Lobby`: the deployed contract as a class. Its field `config` is the record stored under the `config` key. Each entry point loads it, changes the loaded copy field by field, and saves it, in the order the Rust code does. Each method is proved to save exactly the state, and return exactly the result, that the matching `Handlers` function gives.
- `Properties`: one lemma per guarantee of one or two invocations. They cover admission control, admin gating, registry clearing, which fields each update changes, the read-only operations, and the quirks below. Concrete scenarios are included too.
- `Traces`: runs of many invocations as the host orders them. Start from an empty registry, for example the state `init` saves. Then every stored entry was created by a registration that presented the lobby's own code hash, stamped with that call's block time. No successful re-pin of the game code hash has happened since.

Behaviour worth noting, modelled as the code has it:
- The sweep after a registration acts on the in-memory copy after the save (`contract.rs:110-111`), so it is never persisted. `Properties.RegistrationDoesNotSweep` shows that an expired entry stays stored.
- The stamper update stores the new stamper hash in `game_hash`. It leaves `stamp_hash` unchanged (`contract.rs:202`). `Properties.StamperHashReachesNewTables` shows the consequence for tables spawned afterwards.
- Unlike the code-id and stamper updates, the jackpot update does not clear the registry (`contract.rs:83-85`).
- `PassTheHatOn` does not validate the new admin: any address, the empty string included, can receive the hat (`contract.rs:238`).
- The expiry filter of `clean_old_contracts` is active, and it is modelled as `Vec::retain` with the condition on line 120.

## Model

| member | source | states |
|---|---|---|
| `Registry.Retain` | src/contract.rs:116-122 | the swept registry is no longer than the original, and an entry is in it exactly when it was in the original and is still live |
| `Registry.RetainIsSubsequence` | src/contract.rs:119-121 | the sweep keeps the surviving entries in their original order |
| `Registry.RetainIsLargest` | src/contract.rs:120 | every order-preserving subsequence of live entries is a subsequence of the sweep, so no entry that should survive is dropped |
| `Registry.RetainIsLargestAll` | src/contract.rs:120 | the same maximality, for all candidate subsequences at once |
| `Registry.RetainLater` | src/contract.rs:116-122 | a sweep at a later time after one at an earlier time is the later sweep alone: an expired entry never comes back |
| `Registry.RetainIdempotent` | src/contract.rs:116-122 | sweeping twice at one time is sweeping once |
| `Registry.RetainAllLive` | src/contract.rs:120 | a registry of live entries only is left unchanged |
| `Registry.RetainAppend` | src/contract.rs:119-121 | the sweep of a concatenation is the concatenation of the sweeps |
| `Registry.RetainSnoc` | src/contract.rs:119-121 | sweeping a registry with one appended entry keeps that entry exactly when it is live |
| `Registry.CleanOldContracts` | src/contract.rs:116-122 | only `contracts` changes; it becomes an order-preserving subsequence of the old registry that contains exactly its live entries (that it is the largest such subsequence is `Registry.RetainIsLargestAll`) |
| `Handlers.RequireAdmin` | src/contract.rs:247-252 | succeeds (with `true`) exactly when the sender is the stored admin, otherwise fails with the admin-only message |
| `Handlers.Init` | src/contract.rs:15-25 | the state `init` saves; its promise is `Properties.InitialState` |
| `Handlers.Handle` | src/contract.rs:33-69 | the dispatcher, one handler per message variant; that a failing call saves nothing is `Properties.FailureSavesNothing`, and the per-operation promises are the `Properties` lemmas below |
| `Handlers.TryUpdateJackpot` | src/contract.rs:71-87 | the jackpot update; its promises are `Properties.AdminGate` and `Properties.UpdateJackpotEffect` |
| `Handlers.TryRegisterCallback` | src/contract.rs:89-114 | the registration callback; its promises are `Properties.RegistrationAuthenticity`, `Properties.RegistrationAppends` and `Properties.RegistrationDoesNotSweep` |
| `Handlers.TryRefresh` | src/contract.rs:124-136 | the public sweep; its promises are `Properties.RefreshSweeps`, `Properties.RefreshNeverLengthens`, `Properties.RefreshIdempotent` and `Properties.RefreshLaterSubsumes` |
| `Handlers.GameInitMsg` | src/contract.rs:148-160 | the child's init message; its fields are stated by `Properties.CreateNewTableEffect` |
| `Handlers.TryCreateNewTable` | src/contract.rs:138-175 | the spawn request; its promises are `Properties.CreateNewTableEffect` and `Properties.CreatedTableCanRegister` |
| `Handlers.TryUpdateRemovalTimeout` | src/contract.rs:177-191 | the timeout update; its promises are `Properties.AdminGate` and `Properties.UpdateRemoveTimeoutEffect` |
| `Handlers.TryUpdateStamper` | src/contract.rs:193-210 | the stamper update; its promises are `Properties.AdminGate`, `Properties.TrustPinChangeClearsRegistry`, `Properties.UpdateStamperEffect` and `Properties.StamperHashReachesNewTables` |
| `Handlers.TryUpdateValidCodeId` | src/contract.rs:212-229 | the code-id update; its promises are `Properties.AdminGate`, `Properties.TrustPinChangeClearsRegistry` and `Properties.UpdateValidCodeIdEffect` |
| `Handlers.TryPassingTheAdminHat` | src/contract.rs:231-245 | the admin transfer; its promises are `Properties.AdminGate` and `Properties.PassTheHatOnEffect` |
| `Handlers.Query` | src/contract.rs:254-261 | the query dispatcher; its promise is `Properties.QueryIsVerbatim` |
| `Handlers.QueryList` | src/contract.rs:263-268 | the listing of the stored registry; its promise is `Properties.QueryIsVerbatim` |
| `Properties.InitialState` | src/contract.rs:15-25 | `init` makes the sender admin, leaves the registry empty, sets the timeout to 7200 seconds and copies the stamper, game and jackpot parameters from the message |
| `Properties.FailureSavesNothing` | src/contract.rs:33-69 | every failing operation leaves the stored state unchanged |
| `Properties.RegistrationAuthenticity` | src/contract.rs:97-102 | a registration succeeds exactly when its referrer is the lobby's own code hash; otherwise it fails with the referrer message and the state is unchanged |
| `Properties.RegistrationAppends` | src/contract.rs:104-110 | an accepted registration saves the old registry unchanged, expired entries included, followed by the new entry stamped with the block time; no other field changes |
| `Properties.RegistrationDoesNotSweep` | src/contract.rs:110-111 | an expired entry is still in the registry saved by a registration, but it is not in the registry saved by a refresh at the same time |
| `Properties.FreshEntrySurvivesSweep` | src/contract.rs:104-122 | a sweep at the registration's own block time keeps the new entry exactly when the timeout is positive |
| `Properties.RefreshSweeps` | src/contract.rs:124-136 | refresh needs no authority, always succeeds, and saves the largest order-preserving subsequence of live entries with every other field unchanged |
| `Properties.RefreshNeverLengthens` | src/contract.rs:128-132 | refresh never lengthens the registry |
| `Properties.RefreshIdempotent` | src/contract.rs:128-132 | two refreshes at one block time have the effect of one |
| `Properties.RefreshLaterSubsumes` | src/contract.rs:116-132 | a refresh followed by a refresh at a later time has the effect of the later one alone |
| `Properties.AdminGate` | src/contract.rs:177-252 | the timeout, code-id, stamper, jackpot and admin-transfer updates succeed exactly when the sender is the admin; otherwise they fail with their message (the jackpot update with its own, from its inline check at lines 78-82) and nothing changes |
| `Properties.TrustPinChangeClearsRegistry` | src/contract.rs:193-229 | a successful code-id or stamper update empties the registry whatever it held |
| `Properties.UpdateValidCodeIdEffect` | src/contract.rs:212-229 | the admin's code-id update sets the game code id and hash and empties the registry; no other field changes |
| `Properties.UpdateStamperEffect` | src/contract.rs:193-210 | the admin's stamper update sets the stamper address, writes the new hash into `gameHash`, keeps `stampHash` and empties the registry; no other field changes |
| `Properties.StamperHashReachesNewTables` | src/contract.rs:193-210 | after a stamper update, new tables are requested with the stamper's hash as game code hash, the new stamper address and the old stamper hash |
| `Properties.UpdateRemoveTimeoutEffect` | src/contract.rs:177-191 | the admin's timeout update sets `removeAfter`, keeps the registry and changes nothing else |
| `Properties.PassTheHatOnEffect` | src/contract.rs:231-245 | the admin can hand the role to any address; the registry and all other fields are kept |
| `Properties.UpdateJackpotEffect` | src/contract.rs:71-87 | the admin's jackpot update sets the jackpot address and hash, keeps the registry and changes nothing else |
| `Properties.CreateNewTableEffect` | src/contract.rs:138-175 | creating a table keeps the state and emits exactly one instantiate message. The message has the pinned code id and hash, the label, no funds and `bg` 0, with the lobby's own address and code hash as callback. Stamper and jackpot references come from the state; `password`, `min_buy` and `max_buy` are passed through unchecked |
| `Properties.CreatedTableCanRegister` | src/contract.rs:99-167 | a later registration with a lobby running the same code succeeds exactly when its referrer is the callback hash that the spawn message handed out |
| `Properties.QueryIsVerbatim` | src/contract.rs:263-268 | the listing is the stored registry, unswept and in order |
| `Properties.RefreshScenarios` | src/contract.rs:116-132 | with timeout 7200, an entry created at 1000 is removed by a refresh at 9000 and kept by one at 8000 |
| `Properties.NonAdminTimeoutScenario` | src/contract.rs:177-191 | a non-admin timeout update to 500 fails and the timeout stays 7200 |
| `Properties.WrongReferrerScenario` | src/contract.rs:97-102 | a registration with a wrong referrer fails and the registry keeps its length |
| `Traces.StepProvenance` | src/contract.rs:33-69 | an entry stored after one invocation was stored before it (with no re-pin in between) or was created by that invocation's accepted registration |
| `Traces.RegistryEntriesAreAuthenticated` | src/contract.rs:89-229 | over any run from an empty registry, every stored entry was created by a registration presenting the lobby's own code hash, stamped with its block time, and no successful re-pin followed |
| `Traces.InitRegistryEntriesAreAuthenticated` | src/contract.rs:15-25 | the same for every run that starts from the state `init` saves |
| `Lobby.Lobby.Init` | src/contract.rs:10-31 | construction stores exactly the state `Handlers.Init` describes |
| `Lobby.Lobby.Handle` | src/contract.rs:33-69 | each message is routed to its handler; the saved state and result are those of `Handlers.Handle` |
| `Lobby.Lobby.TryUpdateJackpot` | src/contract.rs:71-87 | loads, checks the admin inline, sets the two jackpot fields, saves |
| `Lobby.Lobby.TryRegisterCallback` | src/contract.rs:89-114 | loads, checks the referrer, pushes the entry, saves, then sweeps the unsaved copy |
| `Lobby.Lobby.TryRefresh` | src/contract.rs:124-136 | loads, sweeps, saves the swept state |
| `Lobby.Lobby.TryCreateNewTable` | src/contract.rs:138-175 | changes nothing and returns the one instantiate message of `Handlers.TryCreateNewTable` |
| `Lobby.Lobby.TryUpdateRemovalTimeout` | src/contract.rs:177-191 | guarded by the admin check, sets the timeout and saves |
| `Lobby.Lobby.TryUpdateStamper` | src/contract.rs:193-210 | guarded by the admin check, sets the stamper address and `gameHash`, clears the registry and saves |
| `Lobby.Lobby.TryUpdateValidCodeId` | src/contract.rs:212-229 | guarded by the admin check, sets the game code id and hash, clears the registry and saves |
| `Lobby.Lobby.TryPassingTheAdminHat` | src/contract.rs:231-245 | guarded by the admin check, sets the admin and saves |
| `Lobby.Lobby.Query` | src/contract.rs:254-268 | returns the stored registry verbatim |

## Left out

- Storage plumbing: the `config`/`config_read` singletons and their load, save and update calls are not modelled. Persistence is the old state in and the new state out. A failed load or save is not modelled, because `init` always runs before any handle or query. An error saves nothing, matching `Singleton::update`, which writes only on success.
- Serialization: `to_binary`, the JSON encoding of messages, and the encoding step of `InitCallback::to_cosmos_msg`. The outbound message is the plain record `Instantiate(codeId, callbackCodeHash, msg, send, instanceLabel)` with `send` empty. Its possible encoding failure is not modelled. The query result is the `ListResponse` value rather than its binary encoding.
- `src/msg.rs` and the `State` struct of `src/state.rs:10-15` are stale schemas. The model takes `State` from `init` and the handle variants from `handle`. It takes only `Contract` from `src/state.rs:17-23`.
- The `GameContractInitMsg` definition is not part of this model. Its field types are inferred from the construction: `bg` is a `nat`, and the other fields have the types of the values assigned.
- `Env` keeps only the fields the lobby reads: block time, sender, own address, own code hash. `HandleResponse` keeps only `messages`, because every handler returns an empty `log` and no `data`.
- Logging (`debug_print!`).
- Registry.Retain: the comparison `createdAt + removeAfter > now` is taken on unbounded integers, so the model assumes that the u64 sum of line 120 does not overflow. Rust's overflow behaviour depends on the build profile and is not modelled.
- Text inputs that do not decode to a known message fail in the host before any handler runs. The message types here are closed datatypes.
- Host concurrency and transactions: each invocation is one atomic step. `Traces` applies invocations in the single order the host chooses.
