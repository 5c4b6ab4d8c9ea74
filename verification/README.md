# Verification model of the cross-chain simulator

The repository simulates blockchains that exchange cross-chain transactions through gateways
(relayers), in three modes: directly (NoR), over a relay chain (AoR), and with a relay chain that
carries block headers only (ToR). It also has an incremental Merkle root for the transactions of a
block. This Dafny project models both, and proves properties of every input, every run and every
reachable state.

## What is modelled

**The Merkle tree** (`MerkleTree.dfy`, `MerklePeaks.dfy`, `MerkleUpdate.dfy`, `MerklePath.dfy`,
`MerkleBinding.dfy`). `Merkle` is the
recursive `merkletree`, with `None` padding and every exception; `UpdateLoop` is the loop of
`update`, which also counts hash calls. The hash is any function from strings to 64-character
digests. It is not assumed injective, which no such function is: binding is stated by exhibiting a
collision. `ceillog` is the exact least power of two.

**The chains** (`Chain.dfy`, `LightClient.dfy`, `FlatStore.dfy`, `Contracts.dfy`, `Node.dfy`,
`Ledger.dfy`, `Generator.dfy`). `Chain` gives each operation of a node as a function on its state:
admitting, proposing, executing and committing. Executing a header synchronisation takes two steps,
one per store write, so that readers in between are covered. Commit sets every transaction to
SUCCESS whatever its execution answered, and a failing contract call keeps what it wrote. `Node` has
the objects that change in place (mempool, block storage, transaction index, executor, mining loop)
and proves each method against those functions; `Contracts` does the same for the light-client
contract, whose real state is one flat map from strings. `Ledger` accounts for every transaction of
every run of one chain.

**The gateways** (`Relayer.dfy`, `Gateway.dfy`, `Multiplex.dfy`). `Relayer` gives routing and every
stage of a destination's consumer as functions: idle, waiting for the relay chain, waiting for the
destination, cleared. `Gateway` has the multiplexing gateway as an object whose loops are proved
against them; `Multiplex` has the older single-destination relayer and the refinement.

**The system** (`System.dfy`) is a state machine over all chains and gateways with fourteen kinds of
steps in any interleaving: user puts, proposals, single executions, commits, listening to one block,
sending one header, each stage of each consumer, and failures. `Invariant.dfy` states what every
reachable state satisfies, lane by lane, and `Frame`, `ChainSteps`, `Preserve`, `LaneSteps` and
`GatewaySteps` prove it. On top of it: gap-free headers and the trust path (`Safety`), the answers
of executed transactions (`Outcome`, `StatusFilter`), what they leave in the store (`StateLogs`,
`Stored`), what gateways build (`Built`), conservation and order (`Order`, `Conservation`), caches
(`Caching`), timestamps and their analysis (`TraceShape`, `Analysis`), relay-chain load (`Load`), what
ends a mining loop (`Soundness`, `Halting`), and progress (`Healthy`, `Progress`, `Delivery`). `Turns`
shows that a turn of the gateway object is made of the system's steps, and `Example` has concrete runs
of a small deployment.

**The security estimate** (`Binomial.dfy`) is the loop over the binomial tail, in exact arithmetic.

## Results that are not what the text of the repository suggests

- In ToR the forwarded transaction itself never passes its header check on the destination, since
  only relay-chain headers are synchronised there (`Outcome.HeaderThere`, an equivalence). What is
  verified there is the L1 transaction, of which exactly one precedes the forwarded transactions of
  each source height.
- The status filter of the listeners selects nothing: every committed transaction has status SUCCESS.
  `Example.FailureIsDelivered` is a run in which a transaction that failed is committed, forwarded and
  delivered. Whether one that a listener takes for successful was executed with success is decided by a
  guard at its execution, and by nothing else (`StatusFilter.ListenedExactly`): that the call is
  well-formed (an allowed function with arguments of the right number and types), and for the `app_init`
  of the generator, that the source chain has a type. When it has one from the start, no well-formed
  `app_init` fails (`StatusFilter.NoneFails`).
- A user can end a mining loop with one transaction, in five ways. Executing it raises outside the
  executor's exception handler: it calls an address without a contract, or it has no address and its
  data is no contract. Or committing it raises: `ts.commit` of its memo is no list, its sender, address
  or data cannot be encoded, or the error message of its call cannot. A chain has stopped if and only if
  one of its steps raised for one of these reasons (`Halting.HaltedExactly`); the transaction is always a
  user's (`Halting.UsersHalt`), and any such one of a user stops a fresh chain in three or four steps
  (`Example.UserHaltsChain`). A chain that is given no such transaction never stops
  (`Halting.NeverHalts`). The results on progress assume that none is pending (`Healthy.Mining`), or that
  none is put (`Delivery.SoundIsDelivered`); all others hold with them.
- The latency analysis fails on some transactions that are delivered. It works on a delivered memo if
  and only if it was put with the time of its creation and, in NoR and ToR, with no marks of its own, or
  with at least three of which the first is `listened` and the third `send`
  (`Analysis.DeliveredIsReadable`). `Example.NoTimeIsDelivered` is a run that delivers one without a time.
- Lists of different lengths can share a Merkle root, in two ways: by padding, as three leaves and the
  same with the last repeated (`MerkleBinding.LengthIsNotBound`), and because a leaf is hashed as an
  inner node is, so that one leaf made of two digests has the root of two leaves
  (`MerkleBinding.PairLeafSharesRoot`). For any two lists these are the only ways, unless the hash
  collides (`MerkleBinding.RootBinds`); without leaves of 128 characters lists share a root exactly when
  they pad to the same list (`MerkleBinding.PlainLeavesBind`).
- The stage averages of the latency analysis do not add up to the latency. What is missing is exactly
  the time from each commit to the next listener's reading, so they do add up if and only if every block
  was read at the time of its commit (`Analysis.DirectReadable`, `Analysis.RelayAveragesAddUp`).
  `Example.StagesFallShort` is a run in which they do not.
- A relayed call that fails for want of a chain type or a delay is stored all the same: what a call wrote
  before it failed stays. So a relayed header or state is in the store if and only if it is no forwarded
  transaction of ToR, while it is answered as stored only if the chain had type and delay
  (`Stored.RelayedStored`).
- An index in another process keeps what it was given before the block's height and status were set
  (`Node.IndexAfterCommit`); only an index in the same process sees them.
- The docstring of the header synchronisation promises '1' or '0'; the code answers with a key or
  raises, and the model follows the code.

## Assumptions

- Chain ids are distinct and not negative, the relay chain is 30000, and the chain classes of a
  deployment are Ethereum or Tendermint; a user may set any type.
- Users and the generator put CTX-SRC for another registered parallel chain, or ordinary transactions,
  with any call, to a contract or to nothing, well-formed or not, and any deployment, but no well-formed
  `header_sync`. The contract would take that from anyone: `Safety.SyncLeavesNoGap` says when such a call
  breaks the interval of synced headers, and `Safety.SyncReplaces` that it replaces a header. They use no
  other memo type of the gateways, do not forge the sender of a gateway, and put no CTX-SRC on the relay
  chain. No key that a contract of theirs writes is one that the light client reads or the address of a
  contract, and a contract that they deploy ends every call, with an answer that can be encoded.
- The memo of a user is arbitrary, with two exceptions for CTX-SRC: its `dst` is the number of a registered
  chain, and its `ts.relayer` is a list or absent. Any other such memo, once committed, ends the listeners that
  route it (`Gateway.RelayerUnix.FilterTxs` says exactly when), and no result about runs covers that.
  Numbers and marks that a memo brings in its lists have the form that the program writes.
- Gateways start while mining is paused, after the set-up transactions are committed, at the latest
  block of their source; every chain has at least two blocks by then. `System.GenesisIsInit` shows
  that such a start exists for every deployment.
- The mempools of the system have no size limit (the object `Node.SyncMemPool` has one).
- A send delivers once, or raises and ends its consumer. Clocks do not go back.
- Within one call of a method the clock is read once.
- A block hash and a transaction proof are represented by what they are computed from.

## Model

| member | source | states |
|---|---|---|
| MerkleTree.UpdateLoop | chain_simulator/blcsr/efficient_merkle_tree.py:10-49 | for every path, index and leaf the loop returns or raises exactly what the recursive climb says, including an out-of-range path and an unbound root |
| MerkleTree.MerkleIsRoot | chain_simulator/blcsr/efficient_merkle_tree.py:52-68 | on every non-empty list of strings the padded recursion returns a root, the one of the tree in which a missing right half repeats the left |
| MerkleUpdate.UpdateAppends | chain_simulator/blcsr/efficient_merkle_tree.py:16-49 | appending a leaf to any list with its generation path gives the recursive root and path of the longer list, with ceil(log2 n) + 1 hash calls and no read beyond the path |
| MerkleUpdate.UpdateAll | chain_simulator/blcsr/efficient_merkle_tree.py:71-86 | folding from the empty path yields the recursive root of every prefix, for every list and not only for 8 leaves, and ends each path in it |
| MerkleUpdate.ClimbCorrect | chain_simulator/blcsr/efficient_merkle_tree.py:20-48 | from any level on, the climb consumes the old peaks and emits the new ones |
| MerkleUpdate.PathEndsInRoot | chain_simulator/blcsr/efficient_merkle_tree.py:83-84 | the last element of the path is the root, also when the only peak is the root |
| MerklePath.UpdateReturns | chain_simulator/blcsr/efficient_merkle_tree.py:20-49 | for arbitrary paths, `update` returns if and only if the index is positive and the path has one node per 1 bit of index - 1 |
| MerklePath.PathLength | chain_simulator/blcsr/efficient_merkle_tree.py:11-15 | the path has at most floor(log2 n) + 2 nodes |
| MerkleBinding.RootBindsPaddedTree | chain_simulator/blcsr/efficient_merkle_tree.py:52-68 | lists of one level have equal roots exactly when they pad to the same tree, or the hash collides on two given strings |
| MerkleBinding.EqualLengthsBind | chain_simulator/blcsr/efficient_merkle_tree.py:52-68 | different lists of one length with equal roots exhibit two colliding strings |
| MerkleBinding.LengthIsNotBound | chain_simulator/blcsr/efficient_merkle_tree.py:61-64 | a list of three leaves and the one with its last leaf repeated have one root |
| MerkleBinding.PairLeafSharesRoot | chain_simulator/blcsr/efficient_merkle_tree.py:52-68 | one leaf that is two digests one after the other has the root of the two leaves hashed, and other padding |
| MerkleBinding.RootBinds | chain_simulator/blcsr/efficient_merkle_tree.py:52-68 | for lists of any lengths: the same padding gives one root, and one root gives the same padding, or two colliding strings, or a leaf that is two digests |
| MerkleBinding.PlainLeavesBind | chain_simulator/blcsr/efficient_merkle_tree.py:52-68 | without leaves of 128 characters, lists of any lengths have one root exactly when they have the same padding, or the hash collides on two given strings |
| MerkleBinding.SamePaddingIs | chain_simulator/blcsr/efficient_merkle_tree.py:61-64 | two lists have the same padding exactly when they are of one level and the lists with their repeated leaves are equal |
| MerkleBinding.PaddedSharesRoot | chain_simulator/blcsr/efficient_merkle_tree.py:61-64 | every list shares its root with its padded list, another one exactly when its length is no power of two |
| FlatStore.KeysDiffer | chain_simulator/vm/base/CtrLightClient.py:89-95 | all keys that the contract computes are different strings: headers, counters, states, flags, settings and delays |
| FlatStore.ParseDigits | chain_simulator/vm/base/CtrLightClient.py:136-139 | a counter written as text reads back as the number |
| FlatStore.SetRepresents | chain_simulator/vm/store.py:5-9 | one write changes the abstract client in one place |
| FlatStore.BaseStore.Set | chain_simulator/vm/store.py:5-9 | the map changes at the key only |
| FlatStore.BaseStore.Get | chain_simulator/vm/store.py:11-13 | the value, or None |
| FlatStore.BaseStore.HasKey | chain_simulator/vm/store.py:15-17 | whether the key is there |
| FlatStore.LastWriteWins | chain_simulator/vm/store.py:5-13 | after any list of writes a key has the value that was written to it last |
| FlatStore.KeysWritten | chain_simulator/vm/store.py:15-20 | a key is there exactly when it was written, so the length is the number of different keys written |
| Contracts.CtrLightClient.Init | chain_simulator/vm/base/CtrLightClient.py:18-33 | after the ten writes the store represents a fresh client, whose delays are exactly those of the class pairs it serves |
| LightClient.TheTenDelays | chain_simulator/vm/base/CtrLightClient.py:18-33 | the pairs of classes and parts that have a delay, one by one |
| Contracts.CtrLightClient.Wait | chain_simulator/vm/base/CtrLightClient.py:146-151 | the end of a call fails when the chain type or the delay is missing |
| Contracts.CtrLightClient.HeaderSync | chain_simulator/vm/base/CtrLightClient.py:117-151 | the flat store goes from representing a client to representing it with the header stored and the maximum raised, and keeps both when the call then fails |
| Contracts.CtrLightClient.HeaderWrites | chain_simulator/vm/base/CtrLightClient.py:138-145 | between the two writes the header is there and the maximum lags |
| LightClient.HeaderIsStored | chain_simulator/vm/base/CtrLightClient.py:132-145 | a header is stored with the height of the executing block and the maximum of its chain is raised to it; nothing else changes |
| Contracts.CtrLightClient.ValidateState | chain_simulator/vm/base/CtrLightClient.py:153-184 | a missing header fails before any write; else the store goes on to represent the client with the state appended, its counter being the length of the log (`LightClient.ValidationIsLogged`) |
| LightClient.ValidationIsLogged | chain_simulator/vm/base/CtrLightClient.py:167-177 | when the header is there the log of its height is the old one and then the state, whatever the call answers; every other log, header, counter, flag and setting stays; otherwise nothing changes |
| Contracts.CtrLightClient.AppInit | chain_simulator/vm/base/CtrLightClient.py:56-77 | with arguments of the right types it fails exactly without a chain type, and else sets the flag of the height exactly for a destination of another class; ill-typed ones are a malformed call of `Exec` |
| Contracts.CtrLightClient.SetParaId | chain_simulator/vm/base/CtrLightClient.py:79-80 | only the chain id changes |
| Contracts.CtrLightClient.SetParaType | chain_simulator/vm/base/CtrLightClient.py:82-83 | only the chain type changes |
| LightClient.FlagsAndSettings | chain_simulator/vm/base/CtrLightClient.py:56-83 | the flag of a block is set by `app_init` for another class than the chain's and by nothing else; type and id change by their own calls only |
| Contracts.CtrLightClient.Exec | chain_simulator/vm/base/CtrLightClient.py:35-54 | every call takes the store from one represented client to the next, with the abstract answer; an illegal function or malformed arguments fail and write nothing |
| Contracts.CtrLightClient.QueryHeaderMaxn | chain_simulator/vm/base/CtrLightClient.py:217-222 | the abstract maximum, 0 when nothing is synced |
| Contracts.CtrLightClient.QueryHeaderCsHeight | chain_simulator/vm/base/CtrLightClient.py:211-215 | the recorded height of a synced header; it fails for a missing header and at height 0, where the key is the counter's |
| Contracts.CtrLightClient.QueryState | chain_simulator/vm/base/CtrLightClient.py:224-228 | the idx-th validated state if there are that many, the counter's text at index 0, and a failure exactly otherwise |
| Contracts.CtrLightClient.QueryUvExists | chain_simulator/vm/base/CtrLightClient.py:230-236 | whether the flag of the height is set |
| Contracts.ExecKeepsLogs | chain_simulator/vm/base/CtrLightClient.py:153-184 | no call shortens or changes a state log |
| StateLogs.LogsAre | chain_simulator/vm/base/CtrLightClient.py:153-184 | over every run, a state log has gained, in order, the states of the executed calls about its chain and height that found their header, and nothing else |
| StateLogs.StateIsKept | chain_simulator/vm/base/CtrLightClient.py:171-177 | the state of such a call is in the log ever after, as the entry after those of the calls executed before it |
| StateLogs.FlagsAre | chain_simulator/vm/base/CtrLightClient.py:68-77 | over every run, the flag of a height is set if and only if a step executed, in the block of that height, an `app_init` for another class than the chain then had |
| Node.SyncMemPool.PutTx | chain_simulator/mempool/mempool.py:13-36 | appends the marked transaction; refuses exactly when a positive limit is reached, and else raises exactly when the memo has no list to mark the time in |
| Node.SyncMemPool.PopTx | chain_simulator/mempool/mempool.py:13-46 | takes the oldest transaction with the time marked, unmarked when marking raises; None exactly when empty |
| Node.PoolIsFifo | chain_simulator/mempool/mempool.py:29-46 | over any calls: what was there and then accepted is, in order, what was taken and then what is left |
| Node.PoolFits | chain_simulator/mempool/mempool.py:29-49 | the size is what was accepted less what was taken, and never exceeds a positive limit |
| Node.TakenWasOffered | chain_simulator/mempool/mempool.py:13-36 | what is taken was offered when there was room, and is pending and marked with the time of the offer |
| Node.BlockStorage.BlockNum | chain_simulator/types/block.py:100-101 | the height of the last block |
| Node.BlockStorage.GetBlockByHeight | chain_simulator/types/block.py:103-107 | the block of a height, None above the last, and Python's indexing for negative heights |
| Node.BlockStorage.Append | chain_simulator/types/block.py:109-113 | exactly the block of the next height is appended |
| Node.TransactionIndexer.Store | chain_simulator/types/transaction.py:201-203 | the entry of the transaction's hash is replaced, all others stay |
| Types.HashCovers | chain_simulator/types/transaction.py:118-127 | two transactions have the same hash exactly when sender, address and data agree, collisions aside |
| Node.IndexedIsLast | chain_simulator/types/transaction.py:201-207 | after any list of stores a query of a hash finds the last transaction stored with it |
| Node.NotIndexed | chain_simulator/types/transaction.py:201-207 | a query of a hash that none was stored with finds what it found before |
| Node.Executor.Execute | chain_simulator/vm/executor.py:46-103 | raises exactly for an address without a contract or data that is no contract, and then writes nothing; a failing contract is an answer, and its writes stay; a deployment stores the contract under its digest |
| Node.BlockchainMProc.constructor | chain_simulator/blockchain/blockchain_p.py:103-143 | a node starts with the genesis block, both contracts stored under their addresses, and a fresh light client |
| Node.BlockchainMProc.SelectTxsFromPool | chain_simulator/blockchain/blockchain_p.py:172-190 | the generated transactions, then the oldest of the pool, until the block has its size or the pool is empty; exactly those leave the pool |
| Node.BlockchainMProc.ProposeBlock | chain_simulator/blockchain/blockchain_p.py:192-198 | the proposing block has the next height; nothing else changes |
| Node.BlockchainMProc.Execute | chain_simulator/blockchain/blockchain_p.py:232-239 | the loop is the chain's execution steps to the end of the block, or to the first call that raises |
| Node.BlockchainMProc.Commit | chain_simulator/blockchain/blockchain_p.py:251-284 | the loops give the committed block of the chain's commit, all with status SUCCESS, or raise for a memo, a hash or an answer and end the mining loop; the index has the transactions indexed by then, behind a proxy the marked ones from before the update |
| Node.IndexAfterCommit | chain_simulator/blockchain/blockchain_p.py:251-284 | what any query finds once a block was committed or committing it has raised: of what was reached the last with the hash and its commit time, behind a proxy without height and with the status of the execution, in the same process with both; of anything else what it found before |
| Node.BlockchainMProc.Round | chain_simulator/blockchain/blockchain_p.py:294-308 | one turn of the loop, with the early end when execution or commit raises |
| Node.BlockchainMProc.Start | chain_simulator/blockchain/blockchain_p.py:286-310 | the loop over any sequence of turns, pauses and a stop is the mining of the model; unless it halts it adds one block for each turn before the stop |
| Node.ExecOnce | chain_simulator/blockchain/blockchain_p.py:232-239 | the two store writes of a header synchronisation together are one contract call |
| Node.RoundMines | chain_simulator/blockchain/blockchain_p.py:286-310 | a turn of the object is a run of the chain's operations that proposes what was generated, and commits once at the time of its end, adding one block, unless the loop halts |
| Node.MiningMines | chain_simulator/blockchain/blockchain_p.py:286-310 | the whole loop is a run of the chain's operations: its proposals and commits are, in order, exactly those of the turns before the first stop, up to a turn in which it halts; unless it halts it adds one block for each |
| Node.PausesDrop | chain_simulator/blockchain/blockchain_p.py:289-293 | pauses, and whatever comes after a stop, make no difference to the loop |
| Generator.GenerateXtx | chain_simulator/blockchain/blockchain_p.py:145-170 | as many transactions as configured, with pairwise different hashes; each calls `app_init` with a destination and its class, and its memo has the same destination and the time of creation alone |
| Generator.NamesDiffer | chain_simulator/blockchain/blockchain_p.py:154-155 | senders of generated transactions differ across chains, blocks and indexes |
| Generator.GeneratedIsAllowed | chain_simulator/blockchain/blockchain_p.py:146-166 | what the generator builds is a transaction that the system's proposals allow, and never ends a mining loop |
| Chain.ProposeKeeps | chain_simulator/blockchain/blockchain_p.py:172-198 | proposing moves pool transactions behind the generated ones and keeps the order of the ledger |
| Chain.ProposeFills | chain_simulator/blockchain/blockchain_p.py:172-190 | a block is what was generated, then the oldest of the pool in order, each marked; it has its size or the pool is empty; if more was generated than fits, it is that and the pool stays |
| Chain.ExecKeeps | chain_simulator/blockchain/blockchain_p.py:232-239 | executing takes the next transaction of the ledger and keeps the ledger |
| Chain.CommitKeeps | chain_simulator/blockchain/blockchain_p.py:251-284 | committing keeps the ledger, and extends the blocks by one of the right height, or halts exactly when a transaction of the block is unfit |
| Ledger.RunAccounted | chain_simulator/blockchain/blockchain_p.py:172-284 | in every run, the admitted transactions in order are those that the blocks took after their generated ones, then the pool; heights are consecutive and no block exceeds the larger of block size and generated transactions |
| GatewaySteps.Reachable | relayer_unix/relayer/relayer_unix.py:180-529 | every reachable state of every mode satisfies the invariant, whatever users call but `header_sync` |
| Soundness.RunSound | relayer_unix/relayer/relayer_unix.py:292-529 | in every reachable state nothing that a gateway sent or holds can end a mining loop |
| System.GenesisIsInit | locals_unix/tor.py:385-414 | every deployment has a state in which gateways start |
| Safety.HeadersHaveNoGaps | chain_simulator/vm/base/CtrLightClient.py:132-145 | in every reachable state, from the listener's start to the stored maximum every header of the source is on the destination and is the source's own; nothing is there beside it, but for the next header between two writes |
| Safety.RecordInBlock | chain_simulator/vm/base/CtrLightClient.py:138-144 | the recorded height of a synced header is that of the block, committed or proposing, that contains its synchronisation |
| Safety.TorTrust | relayer_unix/relayer/relayer_unix.py:304-371 | whatever a PAP gateway has sent for source height h, the relay chain holds the header of h confirmed in its committed block c, the destination holds the header of c, and exactly one L1 transaction for h, naming c, comes before it |
| Safety.SentTrust | relayer_unix/relayer/relayer_unix.py:304-371 | the same for one state, from the invariant |
| Safety.SyncLeavesNoGap | chain_simulator/vm/base/CtrLightClient.py:132-145 | a header synchronisation by anyone keeps the synced headers an interval if and only if its height is 0, or from the start to one above the maximum |
| Safety.SyncReplaces | chain_simulator/vm/base/CtrLightClient.py:132-145 | it stores whatever header it brings in place of the one that was there |
| Outcome.RelayedAnswers | chain_simulator/vm/base/CtrLightClient.py:167-169 | in NoR and AoR no executed relayed transaction failed its header check; in ToR no L1 transaction did, and every forwarded one did |
| Outcome.HeaderThere | chain_simulator/vm/base/CtrLightClient.py:167-169 | the header that a relayed transaction names is on its destination if and only if the transaction is not a forwarded one of ToR |
| Outcome.DelaysExist | relayer_unix/relayer/relayer_unix.py:396-413 | every call that a gateway builds names classes that have a verification delay on the destination |
| Built.HeaderCall | relayer_unix/relayer/relayer_unix.py:488-513 | in every reachable state a header synchronisation of a gateway is, field by field, that of a committed block of its source |
| Built.StateCall | relayer_unix/relayer/relayer_unix.py:342-413 | a forwarded transaction names its source and, in ToR between different classes, the simple protocol, else the source's class; it has the block, the transaction and the memo of what it forwards; an L1 transaction names the relay chain and its destination |
| Outcome.AboutRead | relayer_unix/relayer/relayer_unix.py:262-290 | what was forwarded comes from a block between the listener's start and its next height |
| StatusFilter.CallSucceeds | chain_simulator/vm/base/CtrLightClient.py:35-184 | a call answers with code 1 exactly when its guard holds (well-formed, type, delay, header; a deployed contract's `init` succeeds), and its answer shows which and what was stored |
| StatusFilter.FilterSelectsNothing | relayer_unix/relayer/relayer_unix.py:210-260 | every committed transaction has status SUCCESS and is queued wherever its memo sends it |
| StatusFilter.ListenedExactly | relayer_unix/relayer/relayer_unix.py:262-290 | over every run, a listened CTX-SRC transaction was executed by one step, and failed there if and only if the guard of its call did not hold |
| StatusFilter.NoneFails | relayer_unix/relayer/relayer_unix.py:262-290 | when the source chain has a type before the gateways start, no executed well-formed `app_init` failed |
| Stored.RelayedStored | chain_simulator/vm/base/CtrLightClient.py:117-184 | over every run, the step that executed a relayed header or state put it in the store if and only if it is no forwarded transaction of ToR, which changes nothing; it is still there, a state at its place of the log; and it was answered as stored if and only if the chain moreover had a type with a delay for the class it names |
| Stored.AllStored | chain_simulator/vm/base/CtrLightClient.py:117-184 | when a chain has its configured type from the start and nobody sets another, every relayed transaction it executed was answered as stored and is in the store, except exactly the forwarded ones of ToR |
| Example.FailureIsDelivered | relayer_unix/relayer/relayer_unix.py:210-260 | a run, with any creation time or none, in which a transaction that failed on its source is committed with success, forwarded and delivered |
| Order.RouteWanted | relayer_unix/relayer/relayer_unix.py:210-260 | routing a block gives a destination exactly the transactions meant for it, in order, with the rewritten memo |
| Relayer.RoutedFrom | relayer_unix/relayer/relayer_unix.py:246-260 | whatever is queued for a destination is a successful cross-chain transaction of the block that goes there next, with its memo rewritten and marked |
| Order.ParaKinds | relayer_unix/relayer/relayer_unix.py:217-244 | nothing but the relay chain of AoR ever holds CTX-INTER, and no gateway sends CTX-SRC |
| Order.RelayKinds | relayer_unix/relayer/relayer_unix.py:229-237 | on the relay chain of AoR everything relayed is CTX-INTER |
| Conservation.HopConserves | relayer_unix/relayer/relayer_unix.py:262-423 | of the blocks a gateway has read, everything meant for a destination is there, in its hand or in its queue, in order and each once |
| Conservation.StateConserves | relayer_unix/relayer/relayer_unix.py:210-423 | for every pair of chains, what users asked equals, in order, what was delivered, then what is on the second hop, on the first hop, and unread |
| Conservation.RunConserves | relayer_unix/relayer/relayer_unix.py:210-423 | this exactly-once equation in every reachable state of all three modes |
| Conservation.DeliveredInOrder | relayer_unix/relayer/relayer_unix.py:210-423 | what a destination has committed of a source is a prefix of what the source has committed for it; in AoR the relay chain has committed each before |
| Conservation.NothingUnderWay | relayer_unix/relayer/relayer_unix.py:210-423 | when nothing is under way, deliveries equal requests |
| Caching.CachedDoesNoMore | relayer_unix/relayer/relayer_unix.py:301-371 | every run of the consumer that keeps heights between transactions is matched, up to caches, by a run of the consumer that asks each time |
| Caching.CachedDoesNoLess | relayer/relayer/relayer_multiplex_async.py:299-365 | every run of the consumer that asks each time is matched by one of the caching consumer, with no more steps |
| Caching.LookupAgrees | relayer_unix/relayer/relayer_unix.py:326-328 | a remembered confirmation height is what a fresh query answers |
| TraceShape.DeliveredTrace | relayer_unix/relayer/relayer_unix.py:15-28 | a delivered transaction stems from a request, and its memo is the requested one with, after whatever that held, the marks listened, ready, send between two commits, in AoR twice with three commits; from the put on its times never decrease |
| TraceShape.RunTraced | chain_simulator/blockchain/blockchain_p.py:253-266 | at every place of every reachable state a cross-chain transaction has the memo it was put with and exactly the events of that place after it |
| TraceShape.RequestsAllowed | chain_simulator/service_unix/blockchain/transaction_handlers.py:64-70 | what a delivery stems from is a transaction that a user or the generator put |
| Analysis.AnalysisDirect | utils/localtools_unix.py:592-633 | the mean of each stage, and an exception exactly for no memos or a memo without the entries it reads |
| Analysis.AnalysisAor | utils/localtools_unix.py:636-661 | the same for the five stages of AoR |
| Analysis.DeliveredIsReadable | utils/localtools_unix.py:592-661 | what any run delivers can be analysed in its mode if and only if the memo as it was put had a creation time and, in NoR and ToR, no marks or three of the right tags; put with only a creation time, its times are in order |
| Analysis.DirectReadable | utils/localtools_unix.py:614-633 | when a delivered memo was put with only a creation time, the stages are non-negative and, with the time from commit to listening, make the latency; without it exactly when that time is 0 |
| Analysis.DirectStages | utils/localtools_unix.py:614-633 | told from the five events since the put: the stages are creation to commit, reading to sending, and sending to the commit on the destination |
| Analysis.DirectAverages | utils/localtools_unix.py:604-611 | each reported average times the number of memos is the sum of these times |
| Analysis.RelayedReadable | utils/localtools_unix.py:636-661 | the same for the five stages of AoR and the two times from commit to listening |
| Analysis.RelayedStages | utils/localtools_unix.py:636-661 | the five stages of AoR, told from the nine events |
| Analysis.RelayedAverages | utils/localtools_unix.py:651-661 | each of the five reported averages times the number of memos is the sum of these times |
| Analysis.AveragesAddUp | utils/localtools_unix.py:604-611 | the averages are non-negative and, with the average time to listening, make the average latency; without it exactly when every transaction was listened to at once |
| Analysis.RelayAveragesAddUp | utils/localtools_unix.py:636-661 | the same for the five averages of AoR |
| Example.StagesFallShort | utils/localtools_unix.py:614-633 | a run with a delivered transaction whose stages are 0, 3 and 2 of a latency of 7 |
| Example.NoTimeIsDelivered | utils/localtools_unix.py:592-633 | a run that delivers a memo without a creation time, on which the analysis fails |
| Load.RelayLoadIs | relayer_unix/relayer/relayer_unix.py:180-260 | once everything read is sent, the relay chain has one transaction per block of a source in ToR, and one more per cross-chain transaction in AoR |
| Load.LoadSaving | locals/workload_ratio_analysis/analysis.py:31-51 | with x cross-chain transactions in every block ToR saves exactly x / (x + 1) of the AoR load |
| Healthy.LookupFinds | relayer_unix/relayer/relayer_unix.py:326-328 | the query for the confirmation height never fails |
| Halting.HaltedExactly | chain_simulator/blockchain/blockchain_p.py:251-310 | in every run a chain has halted if and only if one of its steps executed a call that raises outside the handler, or committed a block with a transaction whose commit times, hash or answer raise |
| Halting.UsersHalt | chain_simulator/vm/executor.py:46-103 | the transaction that raises is always a user's, never a gateway's |
| Halting.NeverHalts | chain_simulator/blockchain/blockchain_p.py:286-310 | a chain that is only given transactions without these causes, each checked on the transaction alone, never halts |
| Halting.HaltedForGood | chain_simulator/blockchain/blockchain_p.py:303-306 | a chain that has halted admits transactions and never does anything else again |
| Example.UserHaltsChain | chain_simulator/blockchain/blockchain_p.py:286-310 | any one transaction of a user that has one of the five causes halts a fresh chain in three or four steps, and it never has another block |
| Example.CallAndMemo | chain_simulator/blockchain/blockchain_p.py:253-266 | two runs: a call to nothing halts a chain at its execution, and a memo whose commit times are no list halts it at its commit, though its call succeeds |
| Healthy.ScheduleGood | relayer_unix/relayer/relayer_unix.py:292-529 | steps without users and failures keep every task alive and change nothing of what was asked |
| Healthy.RunRunning | relayer_unix/relayer/relayer_unix.py:292-529 | every task is running after any run in which nothing fails and what is put is sound |
| Delivery.NoDeadlock | relayer_unix/relayer/relayer_unix.py:262-423 | from every reachable state with all tasks alive and no pending transaction that ends a mining loop, a finite schedule without users and failures delivers everything asked, between all pairs, in every mode |
| Delivery.SoundIsDelivered | relayer_unix/relayer/relayer_unix.py:262-423 | after any run in which nothing fails and no transaction that ends a mining loop is put, a finite schedule delivers everything asked |
| Delivery.DeliverTor | relayer_unix/relayer/relayer_unix.py:312-340 | the schedule through ToR's three waits: source header on the relay chain, its block, that block's header on the destination |
| Delivery.Consume | relayer_unix/relayer/relayer_unix.py:379-427 | once the headers read are in place, the consumer empties its queue in boundedly many steps |
| Delivery.DeliveredStays | relayer_unix/relayer/relayer_unix.py:379-427 | what is delivered stays delivered and is not delivered again |
| Gateway.RelayerUnix.constructor | relayer_unix/relayer/relayer_unix.py:114-156 | a gateway starts without destinations at the latest block |
| Gateway.RelayerUnix.AddDst | relayer_unix/relayer/relayer_unix.py:158-171 | registers a new destination; refused exactly for the source, a registered chain, or a PAR gateway without exactly one relay end |
| Gateway.RelayerUnix.PutTx | relayer_unix/relayer/relayer_unix.py:95-99 | one queue grows by the transaction; an unregistered destination raises |
| Gateway.RelayerUnix.PutHeader | relayer_unix/relayer/relayer_unix.py:101-106 | one queue grows by the header; an unregistered destination raises |
| Gateway.RelayerUnix.FilterHeader | relayer_unix/relayer/relayer_unix.py:180-208 | the loop gives the header once to every target but the source, and raises exactly for an unregistered target |
| Gateway.RelayerUnix.FilterTxs | relayer_unix/relayer/relayer_unix.py:210-260 | one pass gives each destination what a pass for it alone would and counts what it routes; it raises exactly at the first transaction with a destination that is no number or not registered, or with marks that are no list |
| Gateway.RoutedCountIs | relayer_unix/relayer/relayer_unix.py:250-260 | the number it reports is that of the transactions that go anywhere |
| Gateway.ReadsWhatMatters | relayer_unix/relayer/relayer_unix.py:217-244 | the destination in a memo is parsed exactly when the next hop depends on it |
| Gateway.RelayerUnix.ListenBlock | relayer_unix/relayer/relayer_unix.py:273-280 | header and transactions of a block are handed out and the next height follows, or the listener ends exactly when handing out a header or routing a transaction raises |
| Gateway.RelayerUnix.DealHeader | relayer_unix/relayer/relayer_unix.py:488-521 | the oldest header leaves the queue and is sent in a header synchronisation, or the send fails and the consumer ends |
| Gateway.RelayerUnix.WaitInter | relayer_unix/relayer/relayer_unix.py:315-325 | polls only while the height it knows is too low, knows what it was answered last, and goes on until the answers run out; a failing query ends the consumer |
| Gateway.RelayerUnix.WaitDst | relayer_unix/relayer/relayer_unix.py:330-340 | the same, for the target height on the destination |
| Gateway.RelayerUnix.WaitRelay | relayer_unix/relayer/relayer_unix.py:312-328 | the same for the relay chain's part of a wait, which ends with the remembered height or the one looked up, or with the consumer ended by a failing query |
| Gateway.RelayerUnix.SendOff | relayer_unix/relayer/relayer_unix.py:341-422 | an L1 transaction goes first for a source height that had none, and the height is remembered; a failing send ends the consumer with what went before it sent |
| Gateway.RelayerUnix.DealXtx | relayer_unix/relayer/relayer_unix.py:301-423 | one turn of the consumer sends and remembers what the stages of the model give for the answers of its polls, also when the proof, a query or a send fails |
| Gateway.TurnSends | relayer_unix/relayer/relayer_unix.py:301-423 | a turn without failures sends exactly when its waits end by the answers given, and then the L1 transaction of a new source height in ToR with the height found, and last the transaction with both marks |
| Turns.TurnPlays | relayer_unix/relayer/relayer_unix.py:301-423 | for any answers and failures, such a turn is a list of the state machine's stages with the same sends: its polls have the answers given, in order and no more than needed, its look-up the answer given, and its marks the times given |
| Turns.StepPlays | relayer_unix/relayer/relayer_unix.py:301-423 | each of the system's steps of a consumer is one stage, with the answer that the chains give, and puts what the stage sends and changes nothing else |
| Turns.RunPlays | relayer_unix/relayer/relayer_unix.py:301-423 | in a run in which everything else may move too, the consumer goes through stages with the answers that the chains gave on the way |
| Multiplex.AsyncRelayer.FilterTxs | relayer/relayer/async_relayer.py:123-138 | the queue grows by every cross-chain transaction of the block, marked and otherwise unchanged, up to the first whose marks are no list, where it raises |
| Multiplex.AsyncRelayer.NextXtx | relayer/relayer/async_relayer.py:182-215 | takes transactions up to the first that is for the destination, or raises exactly at the first whose destination is parsed and no number |
| Multiplex.CheckIsRouting | relayer/relayer/async_relayer.py:182-215 | the late check accepts what the early routing picks, with the same memo |
| Multiplex.MultiplexRefines | relayer/relayer/relayer_multiplex_async.py:206-256 | for any list of blocks, one pass for all destinations gives each the transactions, order, memos and marks that a relayer for it alone forwards |
| Multiplex.ListenerNeverRaises | relayer_unix/relayer/relayer_unix.py:210-260 | in every reachable state no listener raises on any block: each routed transaction has a registered destination and a memo that can be marked |
| Multiplex.PassIsListening | relayer_unix/relayer/relayer_unix.py:180-260 | with a deployment's destinations registered, the object's pass is the system's listening step |
| Binomial.TailProbability | security/theory/relay_prob_malicious.py:8-12 | the inner loop computes the sum of the terms above a third |
| Binomial.TailProbabilities | security/theory/relay_prob_malicious.py:5-13 | the outer loop does so for each number of nodes |
| Binomial.BinomialTheorem | security/theory/relay_prob_malicious.py:9-12 | all terms add up to the power of the sum, for 1/5 + 4/5 and for 2/5 + 4/5 |
| Binomial.TailIsProbability | security/theory/relay_prob_malicious.py:7-12 | the result lies in [0, 1], and with the terms below makes 1 |
| Binomial.TailBound | security/theory/relay_prob_malicious.py:7-12 | for every n the result is at most (6/5)^n / 2^(n // 3 + 1) |

## Left out

- Transport: HTTP, unix sockets, retries, connectors, processes, threads, tornado handlers, Docker. A send is an atomic admission or a failure.
- JSON text, pickle and `lru_cache`: memos, transactions, blocks and calls are datatypes. Aliasing of transaction objects is modelled where it shows, between block and index.
- Padding of the argument in place by the recursive Merkle root: its callers in the file pass fresh slices.
- Verification delays and sleeps: only the order of events, and clocks that do not go back.
- `check_tor_uv` and `_exec_sleep`: nothing calls them. The flag of the UV protocol is modelled, its gateway side is not.
- `propose_block_and_exec`: the mining loop does not call it.
- Restarts: a gateway task that has ended is not started again.
- Gateway.RelayerUnix.DealXtx: polls get a finite list of answers, so a wait that never ends is a turn that stops at the wait.
- The code of deployed contracts: a deployment answers, fails or raises and its contract is stored, and a later call of it counts as a call of the key-value contract.
- The header whose sending fails: the object drops it, the state machine leaves it in the queue of the consumer that has ended, where nothing reads it.
- The times that a commit which raises has already marked in its own block: the block is never stored or read.
- A second copy of the latency analysis: the functions for NoR and ToR have the same body and are one method.
- Floating point: the binomial tail is computed in exact fractions, latencies in whole units of time.
- The plots, argument parsing, drivers, and the near copies of relayers and connectors for other transports.
