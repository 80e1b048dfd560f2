# CosmWasm: models and proofs

Dafny models of seven parts of the CosmWasm repository, with proofs of what they promise over all inputs and all
histories.

- **Staking derivative** (`Staking.dfy`, `StakingProofs.dfy`, `StakingStore.dfy`, `Uint128.dfy`). Handlers are functions
  from the stored state and the chain's answers to a new state and messages; a small chain (delegated, unbonding and
  bank balance, rewards, donations, slashing) carries the messages out. The same handlers exist as methods over the raw
  byte store, proved to simulate the typed ones over whole histories.
- **Namespaced storage** (`Bytes.dfy`, `Seqs.dfy`, `OrderedMap.dfy`, `LengthPrefixed.dfy`, `NamespaceHelpers.dfy`,
  `Storage.dfy`, `TypedStorage.dfy`). A `BTreeMap` is the strictly ascending list of its records; a prefixed storage is
  a window onto it.
- **Two-chain IBC protocol** (`IbcContracts.dfy`, `IbcProtocol.dfy`, `IbcProofs.dfy`, `IbcFlight.dfy`). Two contracts, the reflect
  accounts, channels with packets and acknowledgements in flight, as one transition system.
- **Profiler** (`Profiler.dfy`, `ProfilerRuns.dfy`). Flat and structured WebAssembly, the reading of one as the other,
  its control semantics, the one-pass rewrite, and the measurements a run performs.
- **Mock address codec** (`MockApi.dfy`), **module cache** (`ModuleCache.dfy`), **sections** (`Sections.dfy`),
  **queue contract** (`Queue.dfy`).

A transaction that returns an error or panics leaves no trace; a panic is the error `Panic`, which no handler catches.
Code that updates state step by step is a class or a method whose contract equates its effect with a function; the
theorems are lemmas about those functions.

## Assumptions

- Staking: only the contract itself sends with the contract's address. The chain may refuse any transaction; a refused
  one changes nothing, so it needs no step of its own. Slashing may happen at any time; results that need its absence
  say how much was lost.
- IBC, from ICS-004 "Channel lifecycle management" and "Packet flow & handling": channel identifiers are never reused;
  both ends of a channel run these two contracts; packets and acknowledgements of an ordered channel arrive in order and
  only at open ends; a timeout closes the sender's end; addresses are assigned once; a submessage and its reply belong
  to the parent's transaction. A handshake proof may be older than the other end's present state.
- Profiler: the two measurement imports leave the WebAssembly state alone, and the original code does not call them.
  Other imports may change the state in any way.
- Cache: no two saved codes share a checksum; serializing a module keeps its code and drops its memory limit.
- Serializers are any pair with non-empty output and decoding inverse to encoding.

## Where the code departs from its comments, or surprises

- `packages/storage/src/namespace_helpers.rs:69` says an all-0xFF prefix cannot occur. The namespace of 0xFFFF bytes of
  0xFF has one (`AllOnesNamespace`), and its open range is always empty (`AllOnesRangeEmpty`), even with a record stored
  (`AllOnesRecordMissed`). The upper bound keeps the prefix's length, so with trailing 0xFF bytes an open range also
  meets cut-off copies of the bound and panics on them; `PrefixedRangeExact` and `ItemsExact` state exactly when, and
  `CutOffBoundPanics` shows a failing store.
- A multilevel window (`packages/storage/src/prefixed_storage.rs:38-43`) is not quite a stack of windows. In open ranges
  the two part when the inner prefix has no upper bound and the joined one has; `StackedRangeIff` is exact,
  `StackedWindowMissesRecord` an instance.
- `contracts/staking/src/contract.rs:125-134` stops `bond` and `unbond` for good after any slash of the delegation
  (`BondCheckPassesIffNeverSlashed`; `SlashStopsBonding` is the shortest run), while transfers, claims and reinvesting go
  on.
- `packages/vm/src/cache.rs:276-278` reads as if a saved module could always be had. A module that the memory cache
  refuses as too heavy makes `get_module` return an error although it was compiled; `GetAfterSave` gives the exact
  condition, `HeavyModuleIsRefused` an instance.
- `packages/std/src/mock.rs:143` speaks of 24 elements; the deck has 54, and the round trip holds exactly for addresses
  without NUL bytes (`RoundTripIff`, `NulAddressIsLost`).
- `contracts/queue/src/contract.rs:185` says parse errors count as 0. With a record that does not parse, the reducer
  returns the parse error when that record is the first one; otherwise it panics in the first row, on that record or on
  an overflow before it (`ReducerExact`, `UnparsableRecord`).
- The profiler pairs its measurements in the text only. At run time a conditional whose condition is 0 loses a take
  (`UntakenBranchLeavesMeasurementOpen`), and this is the only way to lose one (`MeasurementsMeetIff`,
  `MeasurementsMeasureIff`). `block_count` stays 0.

## Model

| member | source | states |
|---|---|---|
| `StakingProofs.AlwaysSolvent` | contracts/staking/src/contract.rs:20-346 | From instantiation through any run, slashing included: sum of balances = issued, sum of claims = claims, bonded >= issued; delegation plus slashed delegation = bonded; account, unbonding and slashed unbonding cover the claims |
| `StakingProofs.RunKeeps` | contracts/staking/src/contract.rs:60-76 | Every run of calls, donations, maturing and slashing keeps the books; the backing misses exactly, the coverage at most, what slashing took |
| `StakingProofs.CallKeeps` | contracts/staking/src/contract.rs:60-346 | Every successful transaction on any chain, reinvest callback included, keeps the books and the price, and the backing up to any loss |
| `StakingProofs.ReinvestKeeps` | contracts/staking/src/contract.rs:288-346 | Withdrawing rewards and calling back keeps the books, the price and the backing |
| `StakingProofs.InstantiateInv` | contracts/staking/src/contract.rs:20-56 | A fresh pool satisfies the invariant whatever its address holds, and needs a known validator |
| `StakingProofs.PriceNeverFalls` | contracts/staking/src/contract.rs:156-163 | Over any run, slashed or not, in which tokens stay issued, bonded/issued never falls |
| `StakingProofs.NoProfit` | contracts/staking/src/contract.rs:136-346 | Acting alone from zero tokens, by any calls, on any chain and while anyone may reinvest, granted claims plus redeemable value never exceed what was paid in plus what was reinvested; without reinvesting, what was paid in |
| `StakingProofs.SoloRun` | contracts/staking/src/contract.rs:136-243 | The exact-ratio invariant behind it, for every solo run and owner |
| `StakingProofs.GainBound` | contracts/staking/src/contract.rs:216-225 | While others' tokens and the price do not fall, a holder's value grows by no more than the pool |
| `StakingProofs.TransferKeeps` | contracts/staking/src/contract.rs:78-102 | Transfers conserve balances and touch no totals |
| `StakingProofs.TransferExact` | contracts/staking/src/contract.rs:85-94 | Succeeds exactly when covered; moves exactly the amount, also to oneself |
| `StakingProofs.BondKeeps` | contracts/staking/src/contract.rs:136-181 | Bonding keeps books and price, adds the payment to bonded and delegates it |
| `StakingProofs.BondExact` | contracts/staking/src/contract.rs:156-169 | Mints one to one into an empty pool, otherwise the largest affordable whole number, all to the sender |
| `StakingProofs.BondSucceedsIff` | contracts/staking/src/contract.rs:136-169 | Bonding fails only for a slashed delegation, a bad address, a missing coin or an overflowing pool |
| `StakingProofs.UnbondKeeps` | contracts/staking/src/contract.rs:183-243 | Unbonding keeps books and price; bonded falls and claims rise by what the sender is granted, which is undelegated |
| `StakingProofs.UnbondExact` | contracts/staking/src/contract.rs:196-230 | Who loses and gains what: amount, floored tax, burnt remainder, floored claim |
| `StakingProofs.UnbondSucceedsIff` | contracts/staking/src/contract.rs:183-230 | With the delegation intact, once balance and tax fit, no later subtraction or credit can fail; the exact success condition |
| `StakingProofs.ClaimKeeps` | contracts/staking/src/contract.rs:245-283 | A claim pays min(balance, claim) and lowers both books by it |
| `StakingProofs.ClaimSucceedsIff` | contracts/staking/src/contract.rs:245-270 | The total claims never underflow; the exact success condition |
| `StakingProofs.MaturedClaimIsPaidInFull` | contracts/staking/src/contract.rs:257-283 | Once the account covers the claims, a claim is paid in full and others' claims are untouched |
| `StakingProofs.BondAllKeeps` | contracts/staking/src/contract.rs:306-346 | Reinvesting adds exactly the surplus over the claims, or nothing |
| `StakingProofs.ReinvestLeavesClaims` | contracts/staking/src/contract.rs:288-346 | Afterwards exactly the claims remain in the account, or the call is a no-op |
| `StakingProofs.BondCheckIff` | contracts/staking/src/contract.rs:106-134 | On any chain the bond check passes exactly when the delegation still equals the stored bonded amount |
| `StakingProofs.BondCheckPassesIffNeverSlashed` | contracts/staking/src/contract.rs:106-134 | From instantiation through any run: it passes exactly when no delegated token was ever slashed |
| `StakingProofs.SlashStopsBonding` | contracts/staking/src/contract.rs:125-134 | Bond ten, lose one: the bond check fails and the next bond is refused |
| `StakingProofs.GetBondedExact` | contracts/staking/src/contract.rs:106-123 | The sum of all delegations; refused exactly for mixed denoms or overflow |
| `StakingProofs.PaymentIsFirst` | contracts/staking/src/contract.rs:142-146 | The payment is the first coin of the bond denom, missing exactly when there is none |
| `StakingProofs.NominalValueAtLeastOne` | contracts/staking/src/contract.rs:388-405 | The reported token value is never below one |
| `Math.RatioFloor` | packages/std/src/math/uint128.rs:413-426 | The ratio is the floor: largest q with q*d <= a*n |
| `Math.RatioAtMostOne` | packages/std/src/math/uint128.rs:413-426 | Ratios up to one neither overflow nor exceed their argument |
| `Math.RatioWithin` | packages/std/src/math/uint128.rs:413-426 | A share of a pool stays within the pool |
| `Math.RatioWhole` | packages/std/src/math/decimal.rs:327-347 | Multiplying by one is the identity |
| `StakingStore.Contract.Instantiate` | contracts/staking/src/contract.rs:20-56 | On an empty byte store, writes exactly the typed initial state |
| `StakingStore.Contract.Transact` | contracts/staking/src/contract.rs:60-76 | Every call on the byte store yields the typed outcome; a failed one restores the store |
| `StakingStore.Contract.Call` | contracts/staking/src/contract.rs:60-346 | A whole transaction with its messages and callback on the byte store follows the typed world; a failure restores the bytes |
| `StakingStore.Contract.RunEvents` | contracts/staking/src/contract.rs:60-76 | Any history on the byte store simulates the history of the typed state |
| `StakingStore.Contract.Live` | contracts/staking/src/contract.rs:20-346 | From an empty store through instantiation and any history: the state the bytes spell has balanced books, bonded >= issued, and is backed and covered up to the losses |
| `StakingStore.StateDetermined` | contracts/staking/src/state.rs:10-33 | The bytes determine the typed state |
| `StakingStore.Contract.TransferTokens` | contracts/staking/src/contract.rs:78-102 | Byte-level transfer simulates the typed one |
| `StakingStore.Contract.BondTokens` | contracts/staking/src/contract.rs:136-181 | Byte-level bond simulates the typed one |
| `StakingStore.Contract.UnbondTokens` | contracts/staking/src/contract.rs:183-243 | Byte-level unbond simulates the typed one, writes before checks included |
| `StakingStore.Contract.ClaimTokens` | contracts/staking/src/contract.rs:245-283 | Byte-level claim simulates the typed one |
| `StakingStore.Contract.BondAll` | contracts/staking/src/contract.rs:306-346 | Byte-level reinvestment simulates the typed one; only an overflow is a no-op |
| `StakingStore.SaveSupply` | contracts/staking/src/state.rs:10-16 | Writing the totals is invisible in the other two cells and both maps |
| `StakingStore.SaveBalance` | contracts/staking/src/state.rs:18-20 | Writing a balance is invisible everywhere but in that balance |
| `StakingStore.SaveClaim` | contracts/staking/src/state.rs:27-29 | Writing a claim is invisible everywhere but in that claim |
| `OrderedMap.PutSound` | packages/std/src/storage.rs:28-34 | A written key reads back, others are unchanged, order survives |
| `OrderedMap.DeleteSound` | packages/std/src/storage.rs:36-38 | A removed key is gone, others are unchanged, order survives |
| `OrderedMap.RangeSound` | packages/std/src/storage.rs:43-65 | A range yields exactly the records between the bounds, in the asked order |
| `OrderedMap.Extensional` | packages/std/src/storage.rs:13-26 | Ordered maps with equal lookups are equal |
| `LengthPrefixed.ToLengthPrefixedNested` | packages/storage/src/length_prefixed.rs:18-39 | The nested encoding; panics exactly on a namespace over 0xFFFF; capacity is exact |
| `LengthPrefixed.NestedPrefixIff` | packages/storage/src/length_prefixed.rs:18-39 | An encoding is a byte prefix of another exactly when the namespace lists are |
| `LengthPrefixed.NoCollisions` | packages/storage/src/length_prefixed.rs:18-39 | Keys under distinct namespaces of one depth never collide |
| `NamespaceHelpers.NamespaceUpperBound` | packages/storage/src/namespace_helpers.rs:71-83 | The in-place loop computes the increment with carry |
| `NamespaceHelpers.UpperBoundShape` | packages/storage/src/namespace_helpers.rs:71-83 | Same length, one byte incremented, zeros behind it |
| `NamespaceHelpers.BoundExact` | packages/storage/src/namespace_helpers.rs:71-83 | A key lies in [prefix, bound) exactly when it has the prefix or is a cut-off copy of the bound |
| `NamespaceHelpers.UpperBoundAppend` | packages/storage/src/namespace_helpers.rs:71-83 | The bound of a joined prefix is the outer prefix and the inner bound |
| `NamespaceHelpers.SpuriousNotNamespaced` | packages/storage/src/length_prefixed.rs:33-39 | Cut-off bounds declare more bytes than they have |
| `NamespaceHelpers.AllOnesNamespace` | packages/storage/src/namespace_helpers.rs:67-69 | Exactly one namespace has an all-0xFF encoding |
| `Storage.PrefixedRangeExact` | packages/storage/src/namespace_helpers.rs:34-65 | Collected, for every store, bounds and order: the range of the prefix's own map, or a panic exactly when a cut-off bound is stored |
| `Storage.ItemsExact` | packages/storage/src/namespace_helpers.rs:34-65 | The lazy iterator step by step: ascending it yields the prefix's whole range before any panic, descending an open range panics first; exactly when it panics |
| `Storage.RangeCollectsItems` | packages/storage/src/namespace_helpers.rs:34-58 | Collecting the lazy iterator of any stack of windows is the range |
| `Storage.NamespaceRange` | packages/storage/src/prefixed_storage.rs:62-69 | Over namespaced stores every namespace's range is that of an independent map; trim never slices too far |
| `Storage.MultilevelRange` | packages/storage/src/prefixed_storage.rs:38-43 | The same below any path of namespaces |
| `Storage.AllOnesRangeEmpty` | packages/storage/src/namespace_helpers.rs:67-83 | Open ranges of all-0xFF and empty prefixes are always empty |
| `Storage.ViewPut` | packages/storage/src/namespace_helpers.rs:13-20 | Writing through a prefix writes the prefix's own map |
| `Storage.ViewDelete` | packages/storage/src/namespace_helpers.rs:22-24 | Removing through a prefix removes from its own map |
| `Storage.ViewGet` | packages/storage/src/namespace_helpers.rs:5-11 | Reading through a prefix reads its own map |
| `Storage.ViewIndependent` | packages/storage/src/namespace_helpers.rs:13-24 | Writes under one prefix are invisible under others |
| `Storage.NamespacedPreserved` | packages/storage/src/prefixed_storage.rs:46-57 | Writing through namespaces keeps every key namespaced |
| `Storage.StackedAccess` | packages/storage/src/prefixed_storage.rs:28-57 | Stacked windows and the joined window agree on get, set and remove |
| `Storage.StackedRange` | packages/storage/src/prefixed_storage.rs:62-69 | They iterate alike step by step, panics included, over any base storage, where the inner prefix has a bound or an end is given |
| `Storage.StackedRangeIff` | packages/storage/src/prefixed_storage.rs:38-69 | Exactly when they iterate alike, for all prefixes, bounds and orders; a stored record witnesses every difference |
| `Storage.StackedWindowMissesRecord` | packages/storage/src/prefixed_storage.rs:38-69 | A record the joined window yields and the stacked one misses |
| `Storage.CutOffBoundPanics` | packages/storage/src/namespace_helpers.rs:60-83 | Namespace [0xFF] over a store holding the raw key [0, 2] panics |
| `Storage.AllOnesRecordMissed` | packages/storage/src/namespace_helpers.rs:67-83 | A record under the all-0xFF namespace is read by key and missed by its open range |
| `TypedStorage.MemoryStorage.Set` | packages/std/src/storage.rs:28-34 | Inserts, or panics on an empty value |
| `TypedStorage.MemoryStorage.Remove` | packages/std/src/storage.rs:36-38 | Removes |
| `TypedStorage.PrefixedStorage.Get` | packages/storage/src/prefixed_storage.rs:47-49 | Looks up in the window's own map |
| `TypedStorage.PrefixedStorage.Set` | packages/storage/src/prefixed_storage.rs:51-53 | Updates the window's own map; other windows see nothing |
| `TypedStorage.PrefixedStorage.Remove` | packages/storage/src/prefixed_storage.rs:55-57 | Removes from the window's own map; other windows see nothing |
| `TypedStorage.PrefixedStorage.Range` | packages/storage/src/prefixed_storage.rs:62-69 | Every step of the lazy iteration over a window |
| `TypedStorage.SameDepthApart` | packages/storage/src/length_prefixed.rs:18-30 | Distinct same-depth namespaces give windows that do not see each other |
| `TypedStorage.SavedValueSurvives` | packages/storage/src/bucket.rs:63-83 | A saved value loads back after any sequence of writes and removals under other paths of the same depth and other keys |
| `TypedStorage.Bucket.Save` | packages/storage/src/bucket.rs:63-66 | Stores the serialized value at prefix and key; an empty one panics |
| `TypedStorage.Bucket.Range` | packages/storage/src/bucket.rs:86-95 | Every step of the lazy typed iteration; a record that does not parse is its own error |
| `TypedStorage.RangeAgreesWithLoads` | packages/storage/src/bucket.rs:74-95 | A typed range has exactly the keys between the bounds, each with what loading it gives |
| `TypedStorage.Bucket.Update` | packages/storage/src/bucket.rs:101-110 | Load, act, store; any failure leaves the store unchanged |
| `TypedStorage.Singleton.Save` | packages/storage/src/singleton.rs:52-55 | Stores the serialized value at the key; an empty one panics |
| `TypedStorage.Singleton.Update` | packages/storage/src/singleton.rs:78-87 | Load, act, store; any failure leaves the store unchanged |
| `IbcProofs.RunKeeps` | contracts/ibc-reflect/src/contract.rs:20-308 | Every run of both chains keeps the protocol invariant and what was learnt |
| `IbcProofs.StepKeeps` | contracts/ibc-reflect-send/src/ibc.rs:20-224 | Every single step does |
| `IbcProofs.RemoteAddressIsWriteOnce` | contracts/ibc-reflect-send/src/ibc.rs:143-213 | The stored remote address is the account B registered and is never replaced while the entry lives |
| `IbcProofs.InFlightAcksNameTheAccount` | contracts/ibc-reflect/src/contract.rs:259-284 | Every acknowledgement in flight names the registered account |
| `IbcProofs.AcksAreAlwaysAccepted` | contracts/ibc-reflect-send/src/ibc.rs:105-213 | No deliverable acknowledgement is rejected; "remote account changed" is unreachable |
| `IbcProofs.TransfersAgree` | contracts/ibc-reflect-send/src/contract.rs:120-166 | All funds sent for a channel go to one address |
| `IbcProofs.FundsGoToTheAccount` | contracts/ibc-reflect-send/src/contract.rs:127-154 | In every reachable state: exactly when funds can be sent, and that they go to the account B registered and still owns |
| `IbcProofs.ClosedStaysForgotten` | contracts/ibc-reflect-send/src/ibc.rs:76-90 | A closed channel's account never comes back, and no funds can be sent for it |
| `IbcFlight.EveryPacketWasSent` | contracts/ibc-reflect-send/src/contract.rs:63-118 | In every run, packets and acknowledgements in flight are, in order, an unbroken stretch of what was sent: first the greeting of the connect, then only packets sent by whoever was admin at that time |
| `IbcFlight.StepMoves` | contracts/ibc-reflect-send/src/ibc.rs:20-224 | All that any single step can do to the packets and acknowledgements of a channel |
| `IbcProofs.AccountsAreOwnedAndDistinct` | contracts/ibc-reflect/src/contract.rs:59-87 | Nothing pending between transactions; distinct channels have distinct accounts still owned by the contract |
| `IbcProofs.DispatchObeyed` | contracts/ibc-reflect/src/contract.rs:287-308 | A dispatch is never refused for ownership and cannot move any account |
| `IbcProofs.RelaysStayInTheirChannel` | contracts/ibc-reflect/src/contract.rs:287-308 | Every executed dispatch was executed by its own channel's account, which serves no other |
| `IbcProofs.ExecuteSafe` | contracts/reflect/src/contract.rs:27-107 | No nesting of calls, through reflect accounts or foreign contracts, hands over an account of the contract |
| `IbcProofs.ConnectBKeeps` | contracts/ibc-reflect/src/contract.rs:149-176 | Connect, instantiation and reply together register one fresh account, owned by the contract, for a channel that had none, and keep the invariant |
| `IbcProofs.CloseShape` | contracts/ibc-reflect/src/contract.rs:180-213 | Closing forgets the account and leaves every owner in place |
| `IbcProofs.ReceiveShape` | contracts/ibc-reflect/src/contract.rs:231-308 | Receiving consumes one packet and queues one fitting acknowledgement |
| `IbcReflectSend.Contract.IbcPacketAck` | contracts/ibc-reflect-send/src/ibc.rs:105-213 | The acknowledgement handlers, case by case, errors leaving no trace |
| `IbcProofs.ConnectAKeeps` | contracts/ibc-reflect-send/src/ibc.rs:47-71 | Connecting on A overwrites no account and keeps the invariant and everything learnt |
| `IbcProofs.CloseAKeeps` | contracts/ibc-reflect-send/src/ibc.rs:76-90 | Closing on A keeps the invariant and everything learnt on other channels |
| `IbcReflect.Contract.HandleInitCallback` | contracts/ibc-reflect/src/contract.rs:59-87 | The reply registers the reported valid address once and clears the pending channel |
| `IbcReflect.Contract.IbcChannelClose` | contracts/ibc-reflect/src/contract.rs:180-213 | Removes the lookup and empties the account |
| `Profiler.InstrumentedStreamsMeanTheSame` | packages/profiler/src/instrumentation.rs:215-267 | Stream in, stream out: a module read back from the emitted operators behaves as the original in every call |
| `Profiler.InstrumentedParses` | packages/profiler/src/instrumentation.rs:215-267 | The emitted stream of a function body is well formed and spells exactly the woven body |
| `Wasm.ParseIff` | packages/profiler/src/instrumentation.rs:221-229 | A stream spells at most one structured code, the one it is written from |
| `ProfilerRuns.MeasurementsMeetIff` | packages/profiler/src/instrumentation.rs:220-263 | In a call that ends normally the performed starts and takes alternate and close, if and only if every conditional met a condition other than 0 |
| `ProfilerRuns.RunIsPassOverRun` | packages/profiler/src/instrumentation.rs:220-263 | The instrumented call performs exactly what the pass emits over the original call's operators, dropping the open block at untaken branches |
| `ProfilerRuns.MeasurementsMeasureIff` | packages/profiler/src/instrumentation.rs:220-263 | And then each performed take looks up exactly the operators performed since its start, under the same condition |
| `ProfilerRuns.ModuleMeasurementsIff` | packages/profiler/src/code_blocks.rs:56-68 | The same against the store shared by a module without hash clashes |
| `ProfilerRuns.MeterFollows` | packages/profiler/src/instrumentation.rs:220-263 | The measurement is in step with the accumulated block until a branch is not taken, and never again after it |
| `ProfilerRuns.BracketWithin` | packages/profiler/src/instrumentation.rs:220-263 | Every block a run measures is one of the text's blocks |
| `ProfilerRuns.UntakenBranchLeavesMeasurementOpen` | packages/profiler/src/instrumentation.rs:224-229 | A two-operator body whose started measurement is never taken |
| `Profiler.InvokeSame` | packages/profiler/src/instrumentation.rs:215-267 | Every call in the instrumented module has the outcome of the original: results, memory, traps and loop/call budget |
| `Profiler.WeaveOneSame` | packages/profiler/src/instrumentation.rs:215-267 | The same for every construct at every instrumentation state |
| `Profiler.GroupIsSilent` | packages/profiler/src/instrumentation.rs:235-259 | An injected group leaves the state as it was |
| `Profiler.InstrumentedStream` | packages/profiler/src/instrumentation.rs:215-267 | The emitted operator stream is the stream of the structured code the meaning is proved for |
| `Profiler.ErasureRestoresStream` | packages/profiler/src/instrumentation.rs:215-267 | Deleting the injected groups gives back the input |
| `Profiler.MeasurementsPairIff` | packages/profiler/src/instrumentation.rs:221-262 | For all functions of a module and the store they share: starts and takes alternate, cover every plain operator once and look up exactly their block, if and only if no two blocks of the module share a hash |
| `Profiler.StoreKeeps` | packages/profiler/src/code_blocks.rs:56-68 | A block without a rival hash is still in the store at the end |
| `Profiler.ModuleStoreKeeps` | packages/profiler/src/code_blocks.rs:56-68 | The same through all functions of a module |
| `Profiler.EmissionIgnoresStore` | packages/profiler/src/instrumentation.rs:215-267 | What is emitted does not depend on the shared store |
| `Profiler.FunctionProfiling.FeedOperator` | packages/profiler/src/instrumentation.rs:215-267 | One operator: the updates of accumulated block, store and output |
| `MockApi.RiffleShuffle` | packages/std/src/mock.rs:674-687 | The loop is the perfect in-shuffle; odd decks panic |
| `MockApi.ShufflesPermute` | packages/std/src/mock.rs:674-687 | k shuffles move position p to 2^k p modulo n+1 |
| `MockApi.RestoredIff` | packages/std/src/mock.rs:628-673 | A deck is restored by k shuffles exactly when 2^k is 1 modulo n+1 |
| `MockApi.DefaultRestorable` | packages/std/src/mock.rs:73-79 | 18 + 2 shuffles restore 54 elements |
| `MockApi.AddrCanonicalize` | packages/std/src/mock.rs:107-132 | Pad, rotate, shuffle; the length errors |
| `MockApi.AddrHumanize` | packages/std/src/mock.rs:134-154 | Shuffle on, rotate back, drop NUL bytes |
| `MockApi.RoundTripIff` | packages/std/src/mock.rs:107-154 | Decoding an encoded text gives it back if and only if it has no NUL byte |
| `MockApi.NulAddressIsLost` | packages/std/src/mock.rs:134-154 | An address with a NUL byte that does not come back |
| `MockApi.DefaultRoundTrip` | packages/std/src/mock.rs:107-154 | Exactly 3 to 54 bytes are accepted; NUL-free addresses come back and have distinct canonical forms |
| `ModuleCache.GetAfterSave` | packages/vm/src/cache.rs:160-168 | At any time after a save, loading gives the saved bytes, and get and pin the saved code compiled for the instance limit; the exact failure |
| `ModuleCache.HeavyModuleIsRefused` | packages/vm/src/cache.rs:280-319 | A saved module too heavy for the memory cache is not served |
| `ModuleCache.RunKeeps` | packages/vm/src/cache.rs:160-319 | Every history keeps every layer equal to compiling the file |
| `ModuleCache.SaveKeeps` | packages/vm/src/cache.rs:343-361 | Saving again rewrites the same bytes; exactly which codes are saved |
| `ModuleCache.PinnedServes` | packages/vm/src/cache.rs:209-254 | Between pin and unpin every fetch is a pinned hit with the same module |
| `ModuleCache.UnpinReleases` | packages/vm/src/cache.rs:248-254 | From an unpin to the next pin no fetch is a pinned hit |
| `ModuleCache.CountersAddUp` | packages/vm/src/cache.rs:30-35 | The four counters sum to fetches plus pins served from memory or disk |
| `ModuleCache.RefusedIffNeverSaved` | packages/vm/src/cache.rs:280-319 | In any history from an empty disk, get and pin report a missing file exactly for checksums never saved, and leave no trace then |
| `ModuleCache.CacheInner.Save` | packages/vm/src/cache.rs:160-168 | The save, step by step |
| `ModuleCache.CacheInner.Get` | packages/vm/src/cache.rs:280-319 | The lookup order, counters and stores of a fetch |
| `ModuleCache.CacheInner.StoreInMemory` | packages/vm/src/modules/in_memory_cache.rs:52-59 | Stores, skips when switched off, or refuses what is too heavy |
| `ModuleCache.CacheInner.PinModule` | packages/vm/src/cache.rs:209-242 | The lookup order, counters and stores of a pin |
| `Sections.EncodeSections` | packages/std/src/sections.rs:24-36 | The encoding with its exact length; too long sections panic |
| `Sections.SplitTail` | packages/std/src/sections.rs:46-69 | Takes off the last section, or panics |
| `Sections.SplitExact` | packages/std/src/sections.rs:46-69 | Succeeds exactly on data that ends in a section |
| `Sections.Decode2Inverts` | packages/std/src/sections.rs:5-9 | Inverts every two-section encoding |
| `Sections.DecodeSections` | packages/vm/src/sections.rs:10-25 | The host's backward loop |
| `Sections.DecodeEncode` | packages/vm/src/sections.rs:10-25 | Host decoding inverts contract encoding, ignoring up to three stray bytes |
| `Sections.DecodeSound` | packages/vm/src/sections.rs:10-25 | Whatever the host accepts is such an encoding |
| `Sections.EncodingInjective` | packages/std/src/sections.rs:24-36 | Different lists have different encodings |
| `Queue.Contract.Perform` | contracts/queue/src/contract.rs:96-143 | Any history on the contract's store keeps it a queue under one-byte keys; while no enqueue is attempted behind key 255, contents and dequeue answers are those of the ideal first-in first-out queue |
| `Queue.Contract.Enqueue` | contracts/queue/src/contract.rs:96-109 | Appends under the next key; fails exactly behind key 255 |
| `Queue.Contract.Dequeue` | contracts/queue/src/contract.rs:113-124 | Removes and returns the first item |
| `Queue.Contract.Migrate` | contracts/queue/src/contract.rs:127-143 | From any store: exactly 100, 101, 102 |
| `Queue.Contract.QueryCount` | contracts/queue/src/contract.rs:155-158 | The number of records of any store; on a queue, of items |
| `Queue.Contract.QueryReducer` | contracts/queue/src/contract.rs:170-195 | On any store: the reducer of the values when all records parse, else exactly which error or panic; on a queue, the reducer of its items |
| `Queue.ReducerExact` | contracts/queue/src/contract.rs:170-195 | The exact outcome on any records, with records that do not parse and sums that overflow |
| `Queue.UnparsableRecord` | contracts/queue/src/contract.rs:185-190 | Two stores with one unparsable record: behind another it is a panic, in front an error |
| `Queue.ReducedMeans` | contracts/queue/src/contract.rs:49-54 | Each item is paired with the sum of the items above it |
| `Queue.SumAboveExact` | contracts/queue/src/contract.rs:183-192 | The checked sum is the naive one and succeeds exactly when every partial sum fits |
| `Queue.Contract.QueryList` | contracts/queue/src/contract.rs:199-216 | `empty` is empty; early and late split all keys in order at 0x20 |

## Left out

- JSON serialization and base64: replaced by an arbitrary lawful serializer.
- Cryptography, the contract/host memory interface, gas metering, static compatibility checks, file-system errors.
- The chain's own fee and zero-amount rules in the staking model.
- Function index shifting, compilation and timing in the profiler; WebAssembly number formats (plain operators have an
  arbitrary meaning, so the result holds for any).
- Reflect accounts are values, not objects: their calls nest, and the outer call's effects must be undone with it.
- The contents of bank accounts on the IBC chains: balances in acknowledgements and at closing are arbitrary.
- The read-only storages, `query_sum` and the other queries: compositions of what is modelled.
- 32 bit width of the cache counters.
- `MeasurementsMeetIff` and `MeasurementsMeasureIff` speak of one call's own frame; callees have starts and takes of
  their own.
- The error texts of `ModuleCache` and of IBC acknowledgements are fixed strings.
