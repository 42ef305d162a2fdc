# DeTTa: a model of the contract runtime

DeTTa is a replicated contract runtime written in Rust. This project models five linked parts of it
in Dafny and states what they guarantee:

- the aspect language: tokenizer, parser, canonical printer (`Syntax`, `Package`), the verifier's graph
  walks and effect inference (`Graph`, `AspectIr`, `Closure`, `CallGraph`, `Effects`), the evaluator as a
  function and as the mutable machine (`Evaluator`, `AspectRuntime`), its budget (`Budget`), and the step
  from static acceptance to run-time safety (`Soundness`, `StaticSafety`, `Escapes`);
- Merkle commitments over a free hash (`Merkle`);
- the transaction executor: storage and keys (`Ledger`), the dispatcher with its nested calls and the
  token, pool, lending, staking, bridge, router and aspect contracts (`Executor`), storage updated in
  place (`TokenLedger`), the flat machine every call tree is matched with (`Steps`, `Linearize`), and what
  follows from that (`Reentrancy`, `Supply`, `Growth`, `Pools`, `Rewards`, `Custody`, `Lending`,
  `Settlement`, `Crossing`), what a whole tree of calls keeps of a contract's account and of the outbox
  (`Watch`, `Holders`, `Trees`, `Duplicates`), over whole runs (`Chain`, `Runs`, `Solvency`) and over blocks
  (`Replication`);
- the mempool (`Order`, `Mempool`);
- the consensus cluster (`Consensus`).

How the executor's theorems are obtained. `Executor` follows the source method by method, with real
mutual recursion: an asset transfer on an aspect ledger calls the dispatcher, and the replay of an
aspect's trace may call any contract. `Linearize.CallSteps` shows that, because of the reentrancy guard,
such a tree changes the store exactly as a flat log of atomic steps does. Invariants are then proved step
by step on the flat machine and lifted to runs of transactions, blocks, deployments and configuration
changes, and from there to all states reachable from a new node. What is not kept step by step, such as the
balance a staking contract owes its stakers, is followed through the call tree itself (`Trees.CallKept`).

Hypotheses worth knowing.

- Hashing is a free datatype: the domain tags and length prefixes of the source make leaf and node
  hashes disjoint, and hashes are taken to be injective.
- Qualified names are pairs. The reserved vocabulary is a table (`AspectIr.DETTA`,
  `Package.GRAMMAR`, `Ledger.NATIVE_METHODS`); the theorems hold for any table.
- Four things stand between the verifier's acceptance and run-time safety. For each, `Escapes` has a module
  that is accepted (`SingleOwner` and `ProjectionSafe` hold) and a method of it refused at replay: an equation nested in a reached body whose left
  side is an action call, which inference takes for a definition; a call of an action named like a form only
  inference knows (`abort`, `deploy-contract!`, `schedule-upgrade!`, `execute-upgrade!`) in a reached body
  (both `Soundness.CleanBodies`); a reached call or read site spelling a reserved atom such as `tx.sender`,
  which the verifier compares with the allowlist as text and the executor as the contract it stands for,
  unless a wildcard covers it (`StaticSafety.SitesResolved`); and a projection whose arguments do what the
  target action may not, since they are not inferred (`Soundness.DirectProjection`).
- Non-inclusion proofs carry positions that the source does not check against their paths.
  `Merkle.PathsAgree` is that check; with it they are sound, and every generated proof passes it.
- Outbox ids. A bridge looks an id up before it takes the asset in, and on an aspect ledger that transfer is
  a call which may queue the same id. So ids are not unique in every state; (contract, id) pairs are, the
  recorded ids are always those of the outbox, and `Duplicates` tells from the state before the call when an
  id stays unique.
- Block heights come from headers without any demand that they grow, so the reward and unbonding theorems ask
  for non-decreasing heights. Solvency over runs asks that no transaction is sent in the contract's name and
  that no allowance on its accounts is on record at the end of the run; allowances are never removed, so none
  was there before.

## Model

| member | source | states |
|---|---|---|
| `Syntax.Tokenize` | crates/detta-aspects/src/lib.rs:799-836 | the character loop with its two inner loops produces exactly the token sequence of the text, or its error at a string quote |
| `Syntax.SExprParser.Parse` | crates/detta-aspects/src/lib.rs:838-881 | the cursor parser returns what the grammar says of the unread tokens and leaves the cursor at what follows; on an error, at the end of the input or just after the unexpected parenthesis |
| `Syntax.TokensOfPrint` | crates/detta-aspects/src/lib.rs:1228-1240 | printing an expression and tokenizing it again gives its tokens, whatever delimited text follows |
| `Syntax.ParseTokensOf` | crates/detta-aspects/src/lib.rs:858-881 | parsing the tokens of an expression gives the expression back and consumes nothing else |
| `Syntax.ParsedIsGood` | crates/detta-aspects/src/lib.rs:858-881 | every parsed expression is made of atoms that print and read back unchanged |
| `Package.ParseAspectPackage` | crates/detta-aspects/src/lib.rs:456-470 | the entry loop reads declarations until the input is used up and stops at the first error |
| `Package.ExtensionsReadBack` | crates/detta-aspects/src/lib.rs:1031-1073 | the calls and reads extensions of a policy, read in either order, print in one order and read back the same |
| `Package.ReadBack` | crates/detta-aspects/src/lib.rs:883-1081 | every accepted declaration is represented by its own S-expression, which is accepted again and yields it |
| `Package.CanonicalIsPrint` | crates/detta-aspects/src/lib.rs:1122-1226 | the canonical text of a declaration is the print of its S-expression |
| `Package.CanonicalRoundTrip` | crates/detta-aspects/src/lib.rs:456-488 | for every source that parses, printing the package canonically and parsing again gives the same package |
| `Package.CanonicalInjective` | crates/detta-aspects/src/lib.rs:472-488 | two sources have the same canonical text exactly when they parse to the same package |
| `Package.LayoutIrrelevant` | crates/detta-aspects/src/lib.rs:799-836 | whitespace and comments may be changed, put in or taken out anywhere that atoms do not run together, without changing what a source parses to |
| `Package.TrailingComment` | crates/detta-aspects/src/lib.rs:799-836 | a comment ending the source without a newline parses as if it were not there |
| `Package.GapsCompose` | crates/detta-aspects/src/lib.rs:799-836 | spaces, newlines and comment lines are such stretches, and so is any concatenation of them |
| `Closure.BundleAspectClosure` | crates/detta-aspects/src/lib.rs:1591-1655 | terminates on cyclic inheritance, fails exactly on an undeclared name, and otherwise returns exactly the aspects reachable by extends and includes |
| `Closure.Collector.CollectBundleAspects` | crates/detta-core/src/lib.rs:1237-1290 | the executor's own walk, with its differently placed guard, computes the same closure |
| `CallGraph.CollectActionCalls` | crates/detta-aspects/src/lib.rs:2466-2486 | the traversal adds exactly the calls the graph is defined by |
| `CallGraph.CycleDetector.DetectActionCycle` | crates/detta-aspects/src/lib.rs:2007-2029 | finished nodes are closed under calls and on no cycle; a failure means a cycle exists |
| `CallGraph.VerifyActionCallGraph` | crates/detta-aspects/src/lib.rs:1988-2005 | accepts exactly when the graph has no directed cycle |
| `Effects.EffectInference.InferExprEffects` | crates/detta-aspects/src/lib.rs:2302-2400 | one traversal step: everything the expression states is recorded and every action it leads to is visited |
| `Effects.EffectInference.InferActionEffects` | crates/detta-aspects/src/lib.rs:2284-2300 | the visited set cuts revisits without losing a fact or inventing one |
| `Effects.InferAction` | crates/detta-aspects/src/lib.rs:2284-2413 | inference from an action collects exactly the facts of the bodies reachable from it |
| `Effects.InferExpr` | crates/detta-aspects/src/lib.rs:2302-2400 | inference from an expression collects exactly its own facts and those of the bodies reachable from it |
| `AspectRuntime.Machine.EvalExpr` | crates/detta-aspect-runtime/src/lib.rs:327-372 | the mutable evaluator computes the specified value, steps and trace, and restores bindings and depth on success and on error |
| `AspectRuntime.Machine.EvalArguments` | crates/detta-aspect-runtime/src/lib.rs:487-502 | operands are evaluated left to right, stopping at the first error, with steps and trace accumulated |
| `AspectRuntime.Machine.EvalChoice` | crates/detta-aspect-runtime/src/lib.rs:469-542 | if, and, or evaluate only the operand they select |
| `AspectRuntime.Machine.EvalCall` | crates/detta-aspect-runtime/src/lib.rs:870-897 | a head naming exactly one action is a call of it |
| `AspectRuntime.Machine.ExecuteNamedAction` | crates/detta-aspect-runtime/src/lib.rs:270-284 | a frame is opened within the depth limit and closed however the body ends |
| `AspectRuntime.Machine.ExecuteInner` | crates/detta-aspect-runtime/src/lib.rs:286-325 | parameters shadow the caller's bindings and the caller's bindings come back afterwards |
| `AspectRuntime.RunProjection` | crates/detta-aspect-runtime/src/lib.rs:178-220 | a projection call gives the specified outcome, step count and trace from an empty state |
| `Evaluator.ArithmeticLaws` | crates/detta-aspect-runtime/src/lib.rs:410-446 | checked subtraction undoes addition and fails exactly below zero, division undoes multiplication, comparisons agree with one another |
| `Budget.ProjectionThreshold` | crates/detta-aspect-runtime/src/lib.rs:117-123 | a run ending in k steps is the same for every budget of at least k and exceeds every smaller budget |
| `Budget.EvalThreshold` | crates/detta-aspect-runtime/src/lib.rs:911-917 | the exact threshold for any expression, frame count and bindings |
| `Budget.ProjectionStepBound` | crates/detta-aspect-runtime/src/lib.rs:270-372 | whatever the budget, a projection of s list nodes over bodies of at most M takes at most s times 1 + M + .. + M^64 steps |
| `Budget.StepBound` | crates/detta-aspect-runtime/src/lib.rs:742-761 | the bound for any expression and frame count, events included |
| `Soundness.ActionEffectsSound` | crates/detta-aspects/src/lib.rs:2284-2413 | every operation an action traces, through nested and shared calls, is covered by the facts inferred from it, provided the bodies reached from it are of the shape inference reads as the evaluator does |
| `Soundness.ProjectionEffectsSound` | crates/detta-aspects/src/lib.rs:2051-2064 | for a projection that calls an action, with arguments that do nothing the action may not do, everything it traces is covered from that action |
| `Escapes.ActionNamedLikeForm` | crates/detta-aspects/src/lib.rs:2367-2387 | an accepted module with an action called abort whose method traces a write that replay refuses; only cleanliness fails |
| `Escapes.NestedEquation` | crates/detta-aspects/src/lib.rs:2319-2327 | an accepted module where a nested equation with an action call on its left traces a write that replay refuses; only cleanliness fails |
| `Escapes.ReservedTarget` | crates/detta-aspects/src/lib.rs:2189-2203 | an accepted module whose allowlist spells tx.sender, so that the call it traces is refused at replay; only site resolution fails |
| `Escapes.EffectfulArgument` | crates/detta-aspects/src/lib.rs:2051-2064 | an accepted module whose projection writes in an argument, which inference never sees and replay refuses; only directness fails |
| `StaticSafety.VerifyStateOwnership` | crates/detta-aspects/src/lib.rs:1563-1575 | accepts exactly when no two aspects declare one state |
| `StaticSafety.PermitFact` | crates/detta-aspects/src/lib.rs:2082-2148 | one inferred fact is accepted exactly when the policy and the bundle's closure permit it |
| `StaticSafety.VerifyProjection` | crates/detta-aspects/src/lib.rs:2031-2152 | acceptance means everything inferred from the projection's target, and every foreign read of its policy's invariants, is permitted; rejection of a resolvable projection means something is not |
| `StaticSafety.PermitInvariants` | crates/detta-aspects/src/lib.rs:2065-2083 | the invariants are accepted exactly when the policy allows every foreign read inferred from them |
| `StaticSafety.OwnedWriteResolves` | crates/detta-core/src/lib.rs:7534-7559 | a state owned in the bundle resolves to one aspect, and the write passes isolation and scope |
| `StaticSafety.VerifiedIsSafe` | crates/detta-aspects/src/lib.rs:744-763 | every write a verified projection traces resolves to one owner in scope, and every call and foreign read is on the allowlist |
| `StaticSafety.UnreservedResolves` | crates/detta-aspects/src/lib.rs:2189-2219 | an allowlist that names no reserved atom resolves every site it allows |
| `StaticSafety.InvariantReadsAllowed` | crates/detta-core/src/lib.rs:4373-4410 | evaluating an invariant of a verified policy makes no foreign read the policy does not allow |
| `StaticSafety.ReplayNeverRefuses` | crates/detta-core/src/lib.rs:4412-4440 | at replay such an operation is refused only for a value that cannot be stored or by the called contract |
| `StaticSafety.RefusedOtherwise` | crates/detta-core/src/lib.rs:4412-4440 | and an operation that is not covered in this way is refused |
| `Merkle.NextMerkleLevel` | crates/detta-core/src/lib.rs:8030-8038 | the pairing loop with its duplicated last node |
| `Merkle.MerkleRoot` | crates/detta-core/src/lib.rs:7967-8028 | the level loop computes the root |
| `Merkle.MerkleProof` | crates/detta-core/src/lib.rs:7972-8016 | the path loop records the sibling at every level, odd levels included |
| `Merkle.VerifyProof` | crates/detta-core/src/lib.rs:1968-1992 | the folding loop accepts exactly when the path leads from the value to the root |
| `Merkle.ProofsVerify` | crates/detta-core/src/lib.rs:7967-8038 | for every non-empty list and index the generated proof verifies against the root |
| `Merkle.InclusionSound` | crates/detta-core/src/lib.rs:1968-1992 | a proof that verifies against the root of a list shows the value is in the list |
| `Merkle.RootBinds` | crates/detta-core/src/lib.rs:8018-8057 | lists without repeated entries have equal roots only if they are equal, despite padding |
| `Merkle.RepeatsCollide` | crates/detta-core/src/lib.rs:8030-8038 | with a repeated entry they need not be: two different lists with one root |
| `Merkle.MapRootBinds` | crates/detta-core/src/lib.rs:4018-4024 | equal storage or registry roots mean equal maps |
| `Merkle.InsertionIndex` | crates/detta-core/src/lib.rs:3925-3961 | the position search finds where an absent key would stand |
| `Merkle.ProveAbsence` | crates/detta-core/src/lib.rs:3925-3990 | for every absent key the neighbour proof, at any position, passes the verifier, and its positions agree with its paths |
| `Merkle.PositionSound` | crates/detta-core/src/lib.rs:1968-1992 | a verified proof is about the entry standing at the position its path spells, in the padded tree; within the list, about that very index |
| `Merkle.LastPinned` | crates/detta-core/src/lib.rs:1968-1992 | a verified proof whose path has nothing to its right is about the last entry |
| `Merkle.AbsenceSound` | crates/detta-core/src/lib.rs:8063-8100 | an accepted neighbour proof whose positions agree with its paths shows the key is absent; nothing but the proof and the root is looked at |
| `Merkle.AbsenceExact` | crates/detta-core/src/lib.rs:3925-3990 | exactly the absent keys have such a proof |
| `Merkle.ForgedPositionAccepted` | crates/detta-core/src/lib.rs:8063-8100 | without that agreement absence proofs are not sound: one with a claimed index of its own is accepted for a key that is present |
| `TokenLedger.GuardedStorage.StateSet` | crates/detta-core/src/lib.rs:6904-6918 | a write commits exactly when the key belongs to the frame's contract and scope, and otherwise changes nothing |
| `TokenLedger.GuardedStorage.TokenInvariantsHold` | crates/detta-core/src/lib.rs:7017-7035 | the overflow-checked summing loop holds exactly when balances add up to the supply within 128 bits |
| `TokenLedger.GuardedStorage.TransferTokenBalance` | crates/detta-core/src/lib.rs:5232-5263 | the in-place transfer commits exactly the specified balances, or fails with the specified error |
| `TokenLedger.GuardedStorage.MintTokenBalance` | crates/detta-core/src/lib.rs:5265-5298 | the in-place mint commits exactly the specified supply and balance, or fails with the specified error |
| `TokenLedger.GuardedStorage.ResolveAssetLedger` | crates/detta-core/src/lib.rs:5128-5173 | the search over recorded supplies finds the one ledger of an asset or refuses |
| `Linearize.CallSteps` | crates/detta-core/src/lib.rs:4107-4312 | every committed call tree changes the store as a flat log of atomic steps does, none of them acting for a contract already on the stack |
| `Linearize.TransferSteps` | crates/detta-core/src/lib.rs:5175-5214 | the same for an asset transfer, which on an aspect ledger is a nested call |
| `Linearize.SwapSteps` | crates/detta-core/src/lib.rs:5002-5126 | a swap's reserve update is atomic on the reserves as they are after its transfers |
| `Linearize.AddLiquiditySteps` | crates/detta-core/src/lib.rs:4883-5000 | so is a liquidity deposit's |
| `Linearize.LiquidateSteps` | crates/detta-core/src/lib.rs:5898-6065 | a liquidation as interest, write-off, two transfers and the final debt and collateral |
| `Linearize.StakeSteps` | crates/detta-core/src/lib.rs:6067-6153 | a stake as accrual, transfer and restake at the accrual height |
| `Linearize.ReplaySteps` | crates/detta-core/src/lib.rs:4314-4371 | the replay of an aspect trace, whose calls recurse into the dispatcher |
| `Linearize.OpSteps` | crates/detta-core/src/lib.rs:4412-4553 | one host operation: its own writes act for the aspect, its calls for others |
| `Reentrancy.CallContext.Enter` | crates/detta-core/src/lib.rs:2451-2470 | entering succeeds exactly for an inactive contract; stack and active set stay in step and hold no contract twice |
| `Reentrancy.CallContext.Exit` | crates/detta-core/src/lib.rs:2472-2476 | leaving pops the frame and deactivates its contract |
| `Reentrancy.CallContext.Execute` | crates/detta-core/src/lib.rs:4107-4120 | the stack discipline by itself, on any abstract tree of calls whose bodies may fail: stack and active set are as before, on success and failure, and the tree succeeds exactly if it never re-enters and nothing in it fails |
| `Reentrancy.CallIsolated` | crates/detta-core/src/lib.rs:4107-4312 | no nested call changes a key of a non-token contract waiting on the stack |
| `Reentrancy.TransferIsolated` | crates/detta-core/src/lib.rs:5300-5340 | nor does an asset transfer, even on an aspect ledger |
| `Reentrancy.SwapWritesBackCurrent` | crates/detta-core/src/lib.rs:5037-5107 | the reserves a swap quoted from are the recorded ones when it writes them back |
| `Reentrancy.SnapshotStaysCurrent` | crates/detta-core/src/lib.rs:4336-4371 | an aspect's snapshot of its own state is still current after it has called another contract |
| `Supply.TransferExact` | crates/detta-core/src/lib.rs:5232-5263 | on a ledger that adds up, a transfer commits exactly when the sender has the amount and is not its own receiver; overflow and the supply check are met only by a transfer to oneself |
| `Supply.SelfTransferRefused` | crates/detta-core/src/lib.rs:4702-4748 | a positive transfer to oneself never commits |
| `Supply.MintExact` | crates/detta-core/src/lib.rs:5265-5298 | a mint is refused only when the supply would overflow, and keeps the ledger adding up |
| `Supply.AtMostOneLedger` | crates/detta-core/src/lib.rs:5128-5150 | an asset has at most one native ledger |
| `Supply.LogSupplied` | crates/detta-core/src/lib.rs:4785-4834 | whatever a call tree does, every native ledger adds up and no asset gets a second one |
| `Supply.LogAccounts` | crates/detta-core/src/lib.rs:5216-5298 | recorded supply grows by exactly the rewards claimed and redemptions made |
| `Chain.CollectBalances` | crates/detta-core/src/lib.rs:2786-2807 | initial balances are accepted exactly when owners are named once and the sum fits |
| `Chain.DeploySound` | crates/detta-core/src/lib.rs:2780-2847 | a deployment keeps every ledger adding up and each asset on one ledger |
| `Chain.TransactSteps` | crates/detta-core/src/lib.rs:3334-3398 | a transaction acts on the store as a flat log does |
| `Chain.RunSound` | crates/detta-core/src/lib.rs:3334-3503 | every run keeps ledgers adding up, one ledger per asset, and outbox and event log in order, and keys, events and messages with deployed contracts |
| `Chain.ReachableSound` | crates/detta-core/src/lib.rs:2655-2674 | so all of this holds in every state reachable from a new node |
| `Chain.Birth` | crates/detta-core/src/lib.rs:2780-3332 | a contract met in a run was deployed by one action of it, and had recorded nothing then |
| `Growth.LogOwned` | crates/detta-core/src/lib.rs:4107-4312 | whatever a call tree does, it writes, notes and queues for deployed contracts only |
| `Runs.RunAccounts` | crates/detta-core/src/lib.rs:5216-5298 | over every run supply grows only by claims and redemptions |
| `Pools.QuoteFacts` | crates/detta-core/src/lib.rs:7730-7738 | what a quote guarantees: fee within the input, an output below the reserve, and the constant-product inequality after rounding |
| `Pools.RoundTripNeverProfits` | crates/detta-core/src/lib.rs:5002-5126 | swapping out and back never returns more than was put in |
| `Pools.SplitNeverGains` | crates/detta-core/src/lib.rs:5037-5075 | splitting a swap in two never yields more than one swap, unless the whole overflows |
| `Pools.LogSolvent` | crates/detta-core/src/lib.rs:4883-5126 | over any call tree no pool's product shrinks and no reserve is emptied |
| `Pools.NothingForNothing` | crates/detta-core/src/lib.rs:5002-5126 | a pool that gave one asset away has received the other |
| `Pools.SwapCustody` | crates/detta-core/src/lib.rs:5002-5126 | a committed swap of native assets moves the pool's balances by exactly the reserve changes |
| `Pools.AddCustody` | crates/detta-core/src/lib.rs:4883-5000 | so does a committed liquidity deposit |
| `Runs.RunSolvent` | crates/detta-core/src/lib.rs:4883-5126 | over every run each pool's product never decreases and no reserve is emptied |
| `Settlement.SwapSettles` | crates/detta-core/src/lib.rs:5002-5126 | a committed native swap: the trader pays the input and receives the returned, quoted output, never below the stated minimum, and the fee is booked |
| `Settlement.DepositMints` | crates/detta-core/src/lib.rs:4883-5000 | a deposit credits the provider with the sum of both amounts in liquidity tokens and both reserves with theirs; supply equals the sum of holdings |
| `Settlement.BorrowSettles` | crates/detta-core/src/lib.rs:5834-5896 | a committed native loan: debt with interest grows by what is handed out and stays within the collateral's limit at a fresh price |
| `Settlement.AccrueDebtOnce` | crates/detta-core/src/lib.rs:6036-6065 | interest is charged once per height |
| `Settlement.DelegatedTransferSettles` | crates/detta-core/src/lib.rs:4785-4834 | a delegated transfer moves exactly the amount, within a live grant's remaining limit, and uses it up |
| `Settlement.QueueEscrows` | crates/detta-core/src/lib.rs:5391-5452 | queueing a native asset escrows exactly the amount the message promises |
| `Growth.LogWaits` | crates/detta-core/src/lib.rs:6275-6477 | whatever a call tree does, the height parked stake waits for does not go back, and before it nothing is released |
| `Runs.RunWaits` | crates/detta-core/src/lib.rs:6275-6477 | so it is over every forward run |
| `Runs.RequestLocks` | crates/detta-core/src/lib.rs:6275-6477 | after a committed request, in every state of every forward run before the delay has passed, nothing pending has been released and every completion is refused |
| `Growth.LogGrown` | crates/detta-core/src/lib.rs:4836-4881 | grants stay recorded and used certificates stay used |
| `Runs.PermitOnce` | crates/detta-core/src/lib.rs:4836-4881 | after a committed permit its certificate is refused in every later state of every run |
| `Rewards.StepFair` | crates/detta-core/src/lib.rs:6521-6559 | accruing, restaking and claiming at one height leave what a staker has earned by then the same |
| `Rewards.EarnedByWaiting` | crates/detta-core/src/lib.rs:6521-6559 | between two heights a staker earns stake times rate per block |
| `Runs.RunFair` | crates/detta-core/src/lib.rs:6067-6559 | with non-decreasing heights, claimed plus outstanding rewards grow by the sum over blocks of stake times rate, however accruals are interleaved |
| `Runs.EarnedFromGenesis` | crates/detta-core/src/lib.rs:6067-6559 | from a new node, for every staking contract there is at the end of a forward run, what a staker was paid and is owed is the sum over all blocks of stake times rate |
| `Custody.PenaltySplits` | crates/detta-core/src/lib.rs:7900-7912 | what is withdrawn is either released or kept as penalty |
| `Custody.StakeKeepsSlack` | crates/detta-core/src/lib.rs:6067-6153 | staking brings in exactly what it promises |
| `Custody.UnstakeKeepsSlack` | crates/detta-core/src/lib.rs:6155-6273 | unstaking pays out exactly what is no longer promised |
| `Custody.RequestKeepsSlack` | crates/detta-core/src/lib.rs:6275-6401 | a request turns stake into pending release and penalty |
| `Custody.CompleteKeepsSlack` | crates/detta-core/src/lib.rs:6403-6477 | completing pays out exactly what was pending |
| `Custody.ClaimKeepsSlack` | crates/detta-core/src/lib.rs:6479-6519 | claiming mints and touches no custody |
| `Holders.HolderBacked` | crates/detta-core/src/lib.rs:4883-6519 | whatever method of a pool, vault or staking contract commits, on natively issued assets its account covers its records as well as before |
| `Trees.CallKept` | crates/detta-core/src/lib.rs:4107-4312 | a whole tree of calls, nested calls into the account's holder included, leaves the account no worse backed, unless someone has been granted the right to spend from it; or, among contracts that queue nothing, leaves the outbox alone |
| `Trees.SilentTrace` | crates/detta-aspects/src/lib.rs:2051-2093 | a verified method whose policy does not name the outbox effect never traces an append |
| `Solvency.RunBacked` | crates/detta-core/src/lib.rs:4883-6519 | over every run in which no transaction is sent in the contract's name and no allowance on its accounts is recorded, a pool's reserves, a vault's collateral and a staking contract's obligations stay as well covered by its balance as they were |
| `Solvency.RunSlack` | crates/detta-core/src/lib.rs:6067-6519 | for staking: what is held beyond stakes, pending releases and penalties never falls |
| `Solvency.AlwaysCovered` | crates/detta-core/src/lib.rs:4883-6519 | from a new node: such a contract deployed after its assets were issued always holds at least what it records |
| `Lending.LiquidationAccounts` | crates/detta-core/src/lib.rs:5930-5965 | only a debt beyond the threshold is liquidated; debt = repaid + remaining + bad debt, collateral = seized + remaining, seized value below repayment plus one unit, and the borrower ends within the limit or with nothing |
| `Lending.LiquidationSettles` | crates/detta-core/src/lib.rs:5898-6065 | a committed liquidation, nested transfers included: accrued debt is repaid, remains or is written off, and every open debt of the vault is within its limit |
| `Lending.DepositCustody` | crates/detta-core/src/lib.rs:5776-5832 | a native deposit moves the vault's balance by exactly the change in recorded collateral |
| `Lending.LiquidateCustody` | crates/detta-core/src/lib.rs:5898-6065 | so does a native liquidation |
| `Lending.DivCeilFacts` | crates/detta-core/src/lib.rs:7821-7829 | rounding up overshoots by less than the divisor |
| `Crossing.CertifiedIsBacked` | crates/detta-core/src/lib.rs:2186-2255 | an accepted certificate means the source queued exactly this message, if trusted quorums sign only real outbox roots |
| `Crossing.LogOutbox` | crates/detta-core/src/lib.rs:5391-5452 | the recorded ids are those of the outbox, no contract uses an id twice, and the outbox only grows |
| `Crossing.LogUnique` | crates/detta-core/src/lib.rs:4555-4599 | every message of a call tree has an id of its own, unless a bridge queued an asset on an aspect ledger in it |
| `Runs.RunUnique` | crates/detta-core/src/lib.rs:5391-5452 | over every run in which no bridge queues an asset on an aspect ledger, each message has an id of its own |
| `Crossing.LogRedeemable` | crates/detta-core/src/lib.rs:5454-5510 | every redemption is marked spent, has an id of its own, and is backed by the source |
| `Crossing.Conserved` | crates/detta-core/src/lib.rs:5454-5510 | redemptions under distinct ids, each backed, never exceed what was queued |
| `Runs.RedeemedWithinQueued` | crates/detta-core/src/lib.rs:5391-5510 | over any pair of runs redemptions belong to distinct source messages for that contract, and no more is redeemed than was queued |
| `Runs.RedeemedFromGenesis` | crates/detta-core/src/lib.rs:5391-5510 | the same from a new node, for every bridge there is at the end |
| `Runs.OutboxGrows` | crates/detta-core/src/lib.rs:5391-5452 | queued messages are never withdrawn or changed |
| `Duplicates.QueueUnique` | crates/detta-core/src/lib.rs:5410-5437 | a queued id is unique when the asset is on a native ledger, or on an aspect ledger from which only contracts that queue nothing can be reached, which is told from policies before the call |
| `Duplicates.QueueUniqueExactly` | crates/detta-core/src/lib.rs:5410-5437 | for a ledger that calls no one, exactly: the id is unique if and only if the ledger's transfer, evaluated before the call, does not append that id |
| `Duplicates.IdQueuedTwice` | crates/detta-core/src/lib.rs:5410-5437 | a concrete chain where one queue of an aspect asset leaves two messages under one id |
| `Replication.DeTTaState.ApplyTransaction` | crates/detta-core/src/lib.rs:3334-3398 | checkpoint and rollback field by field: whatever a failing call leaves behind in any of them, only the nonce remains used |
| `Replication.DeTTaState.BuildBlock` | crates/detta-core/src/lib.rs:3400-3443 | building works on a copy and announces its receipts and roots |
| `Replication.DeTTaState.ApplyBlock` | crates/detta-core/src/lib.rs:3445-3503 | a block is adopted exactly when everything matches; a refused block changes nothing |
| `Replication.ExecutedOnce` | crates/detta-core/src/lib.rs:3348-3355 | over any sequence of transactions each sender and nonce is executed at most once |
| `Replication.RunExecutesOnce` | crates/detta-core/src/lib.rs:3348-3355 | over any run, blocks and deployments in between included, a sender and nonce once executed are rejected from then on |
| `Replication.ApplyReproduces` | crates/detta-core/src/lib.rs:3400-3503 | a node in the proposer's state accepts the block exactly when it is within the resource limit, and reaches the proposer's state |
| `Replication.RootsPinState` | crates/detta-core/src/lib.rs:4018-4064 | the header's roots determine the state |
| `Replication.AcceptedBlockPinsState` | crates/detta-core/src/lib.rs:3445-3503 | nodes that accept one block are in one state afterwards, whatever they were in before |
| `Replication.DrainedBlockApplies` | crates/detta-core/src/lib.rs:2384-2399 | a block drained from the mempool within the default limit passes every equal node's resource check and is applied |
| `Replication.AdmittedRuns` | crates/detta-core/src/lib.rs:1692-1743 | what the mempool admits the next block executes: only the call itself can revert it |
| `Mempool.Pool.Submit` | crates/detta-core/src/lib.rs:1692-1743 | admission exactly as the policy says; the hash set stays that of the pending transactions, distinct and within limits |
| `Mempool.Pool.RetainAdmissible` | crates/detta-core/src/lib.rs:1757-1767 | keeps exactly what the new state admits, in order |
| `Mempool.Pool.DrainOrdered` | crates/detta-core/src/lib.rs:1769-1780 | empties the pool into a sorted rearrangement |
| `Mempool.Pool.DrainWithLimit` | crates/detta-core/src/lib.rs:1782-1806 | partitions the pending set into a sorted block within the limit and a sorted remainder |
| `Mempool.SelectFacts` | crates/detta-core/src/lib.rs:1782-1806 | the greedy selection is a partition, keeps order, and is within the limit as a block is measured |
| `Mempool.DeferredDoesNotFit` | crates/detta-core/src/lib.rs:1782-1806 | a deferred transaction would have exceeded the limit on top of what was taken before it |
| `Mempool.SortedUnique` | crates/detta-core/src/lib.rs:1769-1780 | distinct transactions have one sorted arrangement |
| `Mempool.DrainIgnoresArrival` | crates/detta-core/src/lib.rs:1769-1806 | pools with one pending set drain one block, whatever the order of arrival |
| `Consensus.DetectEquivocation` | crates/detta-consensus/src/lib.rs:362-391 | evidence is returned exactly when some validator voted for two blocks at one height, and it is true of the first who did, hashes in order |
| `Consensus.CertificateFromVotes` | crates/detta-consensus/src/lib.rs:331-360 | a certificate is issued exactly without equivocation and with a quorum; its signers are the supporters, sorted |
| `Consensus.VerifyFinalityCertificate` | crates/detta-consensus/src/lib.rs:401-440 | accepts exactly a certificate for the block signed by a quorum of the active set and by no one else |
| `Consensus.CertificatesShareSigners` | crates/detta-consensus/src/lib.rs:393-399 | two accepted certificates share more than a third of the active set |
| `Consensus.ForkIsAccountable` | crates/detta-consensus/src/lib.rs:362-440 | two blocks certified at one height mean detectable equivocation by more than a third |
| `Consensus.AgreementWithoutEquivocation` | crates/detta-consensus/src/lib.rs:362-440 | without equivocation a height has one certified block |
| `Consensus.Cluster.RecordEquivocation` | crates/detta-consensus/src/lib.rs:161-180 | only members are slashed, once; the first record holds the evidence and stands, and no other record changes |
| `Consensus.Cluster.CertificateFromActiveVotes` | crates/detta-consensus/src/lib.rs:231-247 | slashed votes do not count; the first equivocator, if a member, is slashed on true evidence and no one else is, and then there is no certificate |
| `Consensus.Cluster.FinalizeBlock` | crates/detta-consensus/src/lib.rs:199-229 | on success all active replicas applied the block and signed; on error replicas that agreed still agree and none has moved; slashed ones never move |
| `Consensus.Cluster.RequireActiveQuorum` | crates/detta-consensus/src/lib.rs:280-300 | exactly a quorum of active validators |
| `Consensus.Cluster.ValidateUpdate` | crates/detta-consensus/src/lib.rs:302-329 | exactly the updates with new, distinct additions, known, distinct removals and someone left |
| `Consensus.Cluster.ApplyUpdate` | crates/detta-consensus/src/lib.rs:249-278 | an update is applied once, by a quorum: newcomers are in the states given, survivors keep theirs, leavers lose their record, no one else is there; a refused update changes nothing |
| `Consensus.NewCluster` | crates/detta-consensus/src/lib.rs:76-97 | a cluster is refused when empty or when a member is named twice, and otherwise holds each member in the state given |
| `Consensus.AgreementKept` | crates/detta-consensus/src/lib.rs:199-229 | replicas that agree all apply a block or none does |

## Left out

- SHA-256, hex, JSON and canonical bytes: replaced by the free hash and by tables of what certificate texts decode to.
- The network, end-to-end, storage, RPC, node and verification crates, the stand-alone instruction evaluator, and the standard library's own aspect sources.
- `lower_to_ir` and the verifier's checks of references, types, facets, conflicts and ABI: only the parts the safety theorem needs are modelled.
- Governance, factory and account-registry contracts inside the dispatcher: deployments, pauses and module registration are actions of a run instead (`Chain.Install`, `Chain.Configure`), so a contract deployed in the middle of a call is not modelled.
- Policy authority: only the oracle's updater grant is modelled; authority kinds of aspect policies are not.
- Permit certificates are matched by their text; signatures are a flag of the transaction.
- Event payloads other than redemptions and reward claims are reduced to a notice.
- Invariants of an aspect policy are kept as the expressions they resolve to; how a reference is resolved is not modelled.
- Two aspect states of one name in one bundle would share a snapshot entry; the model picks either value, the source the later key.
- Native contract methods are functions on values: update in place is modelled for storage, tokens, the call stack, the evaluator, the mempool, the cluster and the node, not for each pool, vault and staking method.
- Linearize.CallSteps: governance, factory and account-registry methods are not among the calls it covers.
- Chain.RunSound: deployments made by a factory in the middle of a call are not among the actions of a run.
- Replication.RootsPinState: the policy root and the scheduled upgrades and policy updates are not part of the roots or of the state.
- Replication.DeTTaState.ApplyTransaction: the fields and methods are ghost, because the executor's functions choose from sets; the two fields of scheduled changes are not modelled, so their rollback is not shown.
- Reentrancy.CallContext.Execute: runs an abstract tree of calls; that the executor's own trees never re-enter is in `Executor.ExecuteCall`.
- Consensus.Cluster.ApplyEverywhere: visits the replicas in any order, where the source goes by identifier; which replica is named in the error may differ.
- Soundness.ActionEffectsSound: stated one way; code of an excluded shape may happen to trace nothing that was not inferred.
- Duplicates.QueueUnique: one way, since a contract that can queue may not do so; for ledgers that call no one the exact condition is `Duplicates.QueueUniqueExactly`.
- Solvency.RunBacked: states that the cover never falls, since anyone may send the contract more; each method's exact effect is in `Pools`, `Lending` and `Custody`.
