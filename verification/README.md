# Verified model of the Capo charter protocol and the machinery around it

A Capo contract keeps a charter: links to its delegates, an insertion-ordered manifest, and a list of
pending changes. Every link is backed by a unique authority token (UUT). This project models the
off-chain builders that change the charter, the transaction context they fill, the scheduler that
runs nested transactions, the state machine, and a few smaller algorithms, and proves what they
promise.

## How it is laid out

| files | what they model |
|---|---|
| `OrderedMap`, `JsString`, `Wrappers` | the insertion-ordered JavaScript `Map`; what JavaScript makes of strings; `Option` and `Result` |
| `CharterModel`, `CharterProtocol` | the charter record, one function per builder, and runs of builders with a token ledger |
| `CharterInvariant`, `CharterSafety`, `CharterHistory`, `CharterErrors`, `BatchCommit` | what every run keeps; what the charter says after a run, field by field; when builders throw on any charter; batch commits against one-by-one commits |
| `TxnContext`, `TxnHistory`, `CharterTxns`, `CharterRuns` | the mutable transaction context, and what it holds after a run; the builders as they assemble a transaction, and its token balance; runs of them on the chain |
| `UutNames` | name objects, roles, and the mint list |
| `Scheduler`, `SchedulerOrder` | nested transactions: `buildAndQueueAll` and `resolveMultipleTxns` |
| `UpgradePlan`, `UpgradeSafety`, `UpgradeOrder`, `UpgradeScripts`, `UpgradeSettings`, `UpgradeProgress` | the upgrade run on that scheduler |
| `StateMachine`, `StateMachineSafety`, `StateMachineProgress`, `StateMachineInstance` | re-entrant transitions with deferred actions: as steps, what runs keep and what they reach, and as an object |
| `ConsoleLogger` | the aliased group stack |
| `RefScriptFee`, `SlotTime`, `CoinSelection`, `Utf8Scan`, `AdaPrinter` | smaller cores |

Code that updates fields or runs loops is a class or a method here, proved equal to a function of the
old state (`CharterTxns.CollectEntries`, `Scheduler.Batch`, `StateMachineInstance.Instance`,
`TxnContext.Context`, `ConsoleLogger.Logger`); the theorems are lemmas about those functions. A
builder that throws yields `Err`.

## Assumptions

- The six-byte seed hash has a fixed length and does not collide on the seeds of the run
  (`CharterProtocol.GoodHash`).
- A builder is given the current charter. The settings step of an upgrade may be given an older copy;
  `UpgradeSafety.StaleCopyIsHarmlessExactly` says when that does no harm.
- Type names and id prefixes are non-empty, and a token-ref key is neither an existing policy nor the
  name of a pending change (`CharterSafety.WellUsed`). Without this the invariant fails;
  `QueueKeepsExactly` and `AddEntryKeepsExactly` say exactly when.
- No role and no policy is called `currentSettings`, the manifest key of the settings record
  (`UpgradeSafety.GoodEnv`, `UpgradeSafety.GoodWorld`). That an upgrade completes, and not only what a
  completed one achieves, also needs initial settings, a fresh seed for every role and two more,
  scripts that the bundles know and no other entry under a policy's name
  (`UpgradeProgress.Provisioned`, `UpgradeProgress.TrustedScripts`).
- Roles are the keys of one object, and so distinct (`UpgradeScripts.DistinctRoles`).
- Transaction ids are not used twice, and the seeds that a run takes from the wallet hold no authority
  token and not the charter (`CharterRuns.NewIds`, `CharterRuns.PlainSeeds`).
- JavaScript numbers are exact in the ranges used. The fee loop is over `real`.
- A builder's transaction is submitted before the next builder runs, and a utxo is spent once.

## Where the code and what it says differ

- A deferred state can take effect twice although one action was scheduled and one promise settled:
  `finishTransition` makes the action pending again when a call that deferred it returns, even if its
  listeners have released it meanwhile (`StateMachineSafety.ReleasedStateMayReturn`). That can happen
  exactly while the deferring call is telling its listeners (`StateMachineSafety.ReturnsExactly`), and
  no more often than an action becomes pending (`StateMachineSafety.OneEffectPerArming`).
- A cancellation is recognised by `nextState == false`, which also holds of state names that convert to
  the number zero, such as `"0"` or `" "`: such a state is never entered (`JsString.EqualsFalse`,
  `StateMachineSafety.UndisturbedCallCommits`).
- `deferredTargetState` looks a transition up under its own name at the top of the table, where the
  states are, so while a transition is deferred no direct call gets through, not even the deferred
  one.
- `deferredTransition` logs that it abandons a destroyed machine's transition but goes on to call it;
  the call then commits nothing, because `finishTransition` checks `destroyed`.
- `txnWillMintUuts` maps roles over purposes in one object, so a role may take the place of a purpose of
  the same name. A purpose keeps its token exactly when, after all roles, some key still leads to it
  (`UutNames.MintedExactly`); `UutNames.RoleNamedAsPurpose` is an instance where none does.
- `lovelaceToAda` misprints every negative amount that is not a whole number of ADA
  (`AdaPrinter.ReadsBackExactly`).
- Spending a utxo that is already a reference input leaves the reference in place; only the charter's
  own path removes it (`TxnContext.SpentIsReferencedExactly`).
- `mkTxnQueuingDelegateChange` and `mkTxnAddingNamedDelegate` go on with the caller's context only if it
  has a seed; otherwise they start another, and what the caller's context held is not in it.
- `txnWillMintUuts` merges the names already in a context into the new ones and `txnMintingUuts` mints all
  of them, the earlier ones once more; a builder's transaction that was balanced stays so exactly when
  there are none (`CharterTxns.CarriedOutBalances`).
- A logger group is opened with a field `collapse`, while its type and its formatter say `collapsed`.

## Model

| member | source | states |
|---|---|---|
| CharterInvariant.UutNameInjective | src/Capo.ts:4902-4931 | A token's name determines its purpose and its seed |
| CharterInvariant.FreshName | src/StellarContract.ts:1679-1705 | A token named from an unspent seed was never minted before |
| CharterInvariant.FindPolicyIsLookup | src/Capo.ts:4513-4524 | On distinct keys, the search for a policy is the lookup of its name |
| CharterInvariant.CollectIsNewEntries | src/Capo.ts:4594-4662 | The commit loop collects exactly one entry per pending change, in pending order, and says whether any replaces |
| CharterInvariant.NewEntriesCarryPendingTokens | src/Capo.ts:4652-4661 | The new entries carry exactly the tokens of the pending changes |
| CharterInvariant.ReplacedTokens | src/Capo.ts:4674-4702 | The burned tokens are, as a multiset, those of the policies that the commit drops, each once |
| CharterInvariant.CommittableTakesOverPolicies | src/Capo.ts:4624-4650 | Committable changes only take over entries that are policies, and none at all when none of them replaces |
| CharterInvariant.CommittedManifestDistinct | src/Capo.ts:4713-4720 | The committed manifest has no key twice |
| CharterInvariant.CommitSucceeds | src/Capo.ts:4578-4733 | On a good charter none of the commit's guards throws; it yields the new entries then the untouched ones, and burns what it drops |
| CharterSafety.QueueSucceedsExactly | src/Capo.ts:4260-4510 | Queueing succeeds if and only if the purpose is short enough, nothing is pending for the name, and the kind and scripts fit the manifest |
| CharterSafety.ReplacementCalledForExactly | src/Capo.ts:4335-4399 | The script checks pass if and only if the bundle knows the on-chain script and has another; "up to date" exactly when there is nothing newer |
| CharterSafety.InstallNeverTripsKindChecks | src/Capo.ts:4128-4149 | Install's choice of Add or Replace never meets the errors for the wrong kind |
| CharterSafety.QueuedChange | src/Capo.ts:4425-4490 | Queueing puts one committable change in front, mints its one token and moves no other |
| CharterSafety.QueueKeepsExactly | src/Capo.ts:4480-4490 | The charter stays committable if and only if the type name and prefix are non-empty |
| CharterSafety.CommitKeeps | src/Capo.ts:4578-4733 | A commit succeeds, empties the pending list, keeps the charter good, and burns exactly what leaves the charter |
| CharterSafety.AddEntryKeepsExactly | src/Capo.ts:4214-4258 | Adding a token-ref entry keeps the charter good and its tokens accounted for if and only if the key is no policy and not pending |
| CharterSafety.EffectKeeps | src/Capo.ts:3687-4258 | Every builder's effect is balanced against the charter and mints at most the token it names |
| CharterSafety.StepKeepsInv | src/Capo.ts:4260-4733 | Every builder keeps conservation, unique names and committability |
| CharterSafety.RunKeepsInv | src/Capo.ts:4260-4733 | So does every run of builders, with throwing ones in between |
| CharterSafety.BootstrapInv | src/Capo.ts:2664-2735 | The charter-minting transaction establishes the invariant; each of the three links has its own token and the script given for it, and nothing else is in the charter |
| CharterSafety.EveryRunIsSafe | src/Capo.ts:4425-4484 | Over every run from a new charter: minted = burned + tokens in the charter + stranded, no name is minted twice, and the pending changes can be committed at any time |
| CharterHistory.StepSetsLink | src/Capo.ts:3752-3756 | A step sets only the link of its own kind, with the token it mints and the script and configuration given, and leaves every other link, named ones included |
| CharterHistory.LinkIsLastSet | src/Capo.ts:3687-4109 | Over any run, each delegate link is the one that the last successful step of its own kind set, or the one it started with |
| CharterHistory.StepRequests | src/Capo.ts:4408-4455 | The queued change records the seed, purpose, prefix, script and configuration asked for, and the token that a replacement retires |
| CharterHistory.StepAddsEntry | src/Capo.ts:4240-4252 | A token-ref entry is stored as given under its key, and nothing else changes |
| CharterHistory.QueuedIsInstalled | src/Capo.ts:4260-4733 | What is queued is what the next commit installs, whatever builders run in between: the token minted for it, and the prefix, script and configuration asked for |
| CharterErrors.QueueOnAnyCharter | src/Capo.ts:4260-4475 | On any charter: exactly when queueing succeeds, and exactly when it is not needed |
| CharterErrors.CommitOnAnyCharter | src/Capo.ts:4594-4702 | On any charter: a commit succeeds if and only if every pending change is an Add or Replace that fits the manifest, and no replacement touches a foreign token |
| CharterErrors.StepOnAnyState | src/Capo.ts:3687-4733 | In any state: exactly when each builder's step throws |
| BatchCommit.CommitByKey | src/Capo.ts:4594-4720 | After a commit each pending name has a policy with its change's token, link and prefix and a reference count of one, and every other key its old value |
| BatchCommit.CommitKeyOrder | src/Capo.ts:4713-4720 | New keys come first in pending order, then the untouched keys in their old order |
| BatchCommit.CommitDiamond | src/Capo.ts:4480-4484 | Queue then commit, or commit then queue then commit, reach the same state |
| BatchCommit.CommitOfNothing | src/Capo.ts:4578-4733 | A commit with nothing pending changes nothing |
| BatchCommit.BatchEqualsOneByOne | src/Capo.ts:4260-4733 | Queueing any number of changes and committing once reaches the same state as committing after each: same manifest in the same order, same burns |
| TxnContext.RunKeepsSound | src/StellarTxnContext.ts:783-939 | After any operations, thrown or not: distinct inputs that are the stack-trace keys, distinct references, an empty facade, the seed among the inputs, distinct nested names |
| TxnContext.NewContextIsSound | src/StellarTxnContext.ts:783-939 | In particular all of that holds after any operations on a new context |
| TxnContext.RunExtends | src/StellarTxnContext.ts:439-458 | The facade flag never flips once set, the first seed stays, and nothing added is withdrawn |
| TxnContext.SpentIsReferencedExactly | src/Capo.ts:849-862 | After any operations a spent utxo is a reference of the builder if and only if it was one and none of them spent it as the charter |
| TxnContext.SpendingUnreferences | src/Capo.ts:853-857 | Spending the charter makes it an input and removes it from the builder's references |
| TxnContext.OrdinaryInputStaysReferenced | src/StellarTxnContext.ts:867-900 | A reference that is then spent as an ordinary input stays one through any operations that do not spend it as the charter |
| TxnHistory.ThrowsExactly | src/StellarTxnContext.ts:439-939 | When each operation throws, exactly |
| TxnHistory.NothingIsMissing | src/StellarTxnContext.ts:439-939 | Whatever an operation that did not throw was to leave is there at the end of the run |
| TxnHistory.NothingIsAdded | src/StellarTxnContext.ts:439-939 | Everything there at the end was there before or was brought by an operation; a seed is the one given, or else the one found; the mint is the sum of what was minted |
| TxnHistory.BuilderRefersExactly | src/Capo.ts:849-862 | After a run from a new context, the builder refers to exactly the recorded references that no operation spent as the charter |
| TxnContext.Context.BecomeFacade | src/StellarTxnContext.ts:439-449 | Throws exactly when a material operation has been tried before, whether or not it left anything; otherwise sets the flag |
| TxnContext.Context.RefuseFacade | src/StellarTxnContext.ts:450-458 | Throws exactly on a facade; otherwise settles the flag |
| TxnContext.Context.Include | src/StellarTxnContext.ts:482-532 | Refuses an undecided context or a repeated name, and otherwise records the nested transaction |
| TxnContext.Context.Spend | src/StellarTxnContext.ts:840-909 | Records an input and its trace once, even if the underlying builder then refuses it |
| TxnContext.Context.Refer | src/StellarTxnContext.ts:783-828 | Adds a reference input unless it is one already or is spent |
| TxnContext.Context.Put | src/StellarTxnContext.ts:911-939 | Records an output only if the underlying builder accepts it |
| TxnContext.Context.Mint | src/StellarTxnContext.ts:541-553 | Adds to the mint, never on a facade |
| TxnContext.Context.AddSeed | src/StellarContract.ts:1679-1705 | Keeps an existing seed; otherwise makes the given or found seed an input |
| TxnContext.Context.SpendCharter | src/Capo.ts:823-864 | Attaches the script, drops the charter from the builder's references, spends it and puts it back |
| CharterTxns.GrantAuthority | src/delegation/StellarDelegate.ts:84-142 | Takes the token in once and returns it unless told not to; succeeds exactly when the token is free, or is in already and the caller allows that |
| CharterTxns.Deposit | src/delegation/ContractBasedDelegate.ts:222-239 | A new token is put out once |
| CharterTxns.UpdateCharter | src/Capo.ts:3292-3301 | The charter goes in and out once, carries its next record, and is no longer referred to |
| CharterTxns.CarriedOutBalances | src/StellarTxnContext.ts:541-553 | A balanced context in which a builder has done its work is balanced if and only if the builder minted no earlier names again |
| CharterTxns.MkTxnQueuingDelegateChange | src/Capo.ts:4260-4510 | To a caller's context that has a seed, or else to a new one, adds exactly the queueing effect, every token taken in being put out; where the charter's tokens are free it throws exactly when the effect is undefined |
| CharterTxns.MkTxnInstallingPolicyDelegate | src/Capo.ts:4128-4149 | The same for install's Add or Replace, in a context of its own |
| CharterTxns.MkTxnAddingNamedDelegate | src/Capo.ts:4022-4109 | The same for a named delegate, in the caller's context or a new one |
| CharterTxns.MkTxnUpdatingMintDelegate | src/Capo.ts:3687-3770 | To any context, normal or forced: the new token is put out, and the old one is granted and burned, or left alone |
| CharterTxns.MkTxnUpdatingSpendDelegate | src/Capo.ts:3786-3871 | The same for the spend delegate |
| CharterTxns.MkTxnAddManifestEntry | src/Capo.ts:4214-4258 | To any context: two tokens pass through, nothing is minted, the utxo named is referred to and no other, and the extended manifest is deposited |
| CharterTxns.CollectEntries | src/Capo.ts:4594-4662 | The loop that fills the new-entries map and the replacing flag computes the specified collection, or its first error |
| CharterTxns.RetireReplaced | src/Capo.ts:4674-4702 | Every replaced policy grants its token without return, and its name joins the burn list |
| CharterTxns.MkTxnCommittingPendingChanges | src/Capo.ts:4578-4733 | To any context: with and without replacements exactly the replaced tokens are taken and burned, and on a good charter whose tokens are free it never throws |
| CharterTxns.ReachableIsReady | src/Capo.ts:4425-4484 | In every reachable state the charter's tokens are distinct, so a chain that holds each in a utxo of its own fits the builders |
| CharterRuns.ReadyIsKept | src/Capo.ts:4425-4490 | The chain after a builder's transaction again holds every token of the new charter once, in a utxo of its own |
| CharterRuns.Build | src/Capo.ts:3687-4733 | Every builder, in a context of its own, carries out its effect, and on a chain that fits throws exactly when that is undefined |
| CharterRuns.RunBuilders | src/Capo.ts:3687-4733 | A run of builders, each on the chain that the one before left, ends in the state of the protocol's run: each throws exactly where its step does, and the chain still fits at the end |
| UutNames.MintedExactly | src/Capo.ts:4902-4931 | A purpose gets a token if and only if, followed through the roles in order, some key still leads to it; nothing else gets one, and nothing gets two |
| UutNames.OneTokenPerPurpose | src/Capo.ts:4902-4931 | So when no role has the name of another purpose, exactly one token is minted for each distinct purpose, however many roles share it |
| UutNames.RoleNamedAsPurpose | src/Capo.ts:4917-4926 | An instance of a purpose that loses its token to a role of its name |
| UutNames.TxnWillMintUuts | src/Capo.ts:4889-4936 | Merges into the names already in the context a map with the specified keys, and one object for each purpose shared by all its roles; it fails exactly on a long name or an unknown purpose |
| UutNames.MkUutValuesEntries | src/utils.ts:29-38 | One entry for each distinct object, by reference, in order of first occurrence |
| UutNames.UniqInOrder | src/utils.ts:29-38 | What is kept of repeated objects is in the order of their first occurrences |
| UutNames.TxnMintNames | src/Capo.ts:4793-4838 | The mint list is one of each new name object and of each earlier one that no new key displaces, by reference, and then the additional values as given; each token's total is the number of its objects and what is additional |
| Scheduler.Batch.BuildAndQueueAll | src/StellarTxnContext.ts:1466-1532 | Builds the transaction unless it is a facade, then everything nested in it, as specified; throws, changing nothing, for a context that is neither |
| Scheduler.Batch.Resolve | src/StellarTxnContext.ts:1934-2045 | One turn of the resolving loop: build just in time, skip what is not needed, stop at an error |
| Scheduler.Batch.ResolveMultipleTxns | src/StellarTxnContext.ts:1900-2045 | Registers every description and then resolves them one by one |
| Scheduler.Batch.Register | src/StellarTxnContext.ts:1900-1933 | Registers all descriptions in order and changes nothing else |
| Scheduler.Batch.ResolveEach | src/StellarTxnContext.ts:1934-2045 | The loop equals the specified run from the first node on |
| SchedulerOrder.ListPreOrder | src/StellarTxnContext.ts:1493-1527 | Nodes are decided in strict pre-order of the tree, hence at most once |
| SchedulerOrder.AllRegisteredFirst | src/StellarTxnContext.ts:1900-1933 | At every level all siblings are registered before the first of them is built |
| SchedulerOrder.ListComplete | src/StellarTxnContext.ts:1934-2045 | A run that nothing stopped has decided every node and everything nested in it |
| SchedulerOrder.ListJustInTime | src/StellarTxnContext.ts:1934-2045 | Each builder sees the state left by the transactions built before it; skipped nodes and facades change nothing themselves |
| SchedulerOrder.ListIsAgenda | src/StellarTxnContext.ts:2054-2135 | The nested loops build the same transactions as a flat agenda that puts nested nodes in front |
| UpgradePlan.PlanIsBounded | src/Capo.ts:2793-2899 | The upgrade plan nests finitely |
| UpgradeSafety.CommitNode | src/Capo.ts:2929-2947 | After a commit node nothing is pending and what was pending is installed |
| UpgradeSafety.NodeKeeps | src/Capo.ts:2793-3082 | Any node with all that is nested in it keeps the invariant and loses no policy |
| UpgradeSafety.SettingsRecordKeeps | src/delegation/DelegatedDataContract.ts:338-405 | The settings record spends a seed of its own and leaves the charter alone |
| UpgradeSafety.StaleCopyIsHarmlessExactly | src/Capo.ts:2949-2975 | A settings install from an older copy of the charter keeps the invariant if and only if the copy has the same tokens, and does what it should if and only if it is current |
| UpgradeSafety.RoleNode | src/delegation/DelegatedDataContract.ts:756-820 | A role's node that completes leaves nothing pending and the role's policy installed |
| UpgradeSafety.RolesInTurn | src/Capo.ts:2820-2890 | The role nodes in turn each find the charter clean and leave it clean |
| UpgradeSafety.UpgradeTheorem | src/Capo.ts:2793-2899 | An upgrade that completes ends with nothing pending, a policy for every enabled role, and every earlier policy kept |
| UpgradeSettings.UpgradeRegistersSettings | src/Capo.ts:2949-3070 | An upgrade that completes has, if there are settings and the charter named no record, made one from a seed of its own and registered it; otherwise neither record nor entry has changed; and settings have their policy |
| UpgradeSettings.UpgradeTouchesNothingElse | src/Capo.ts:2793-3070 | Completed or not, an upgrade leaves every entry that is not of a role it sets up, pending, or of the settings it registers; a role that is not enabled gets no policy |
| UpgradeSettings.SettingsBuildExactly | src/Capo.ts:2983-3070 | The settings nodes build exactly with a settings policy, initial settings and a fresh seed, or a record; otherwise they throw |
| UpgradeOrder.EachInstallCommitsFirst | src/delegation/DelegatedDataContract.ts:756-820 | Each role's change is queued only when everything queued before it has been committed |
| UpgradeOrder.UpgradeQueuesOnClean | src/Capo.ts:2793-2899 | So it is over the whole upgrade run, completed or not |
| UpgradeOrder.CheckPlans | src/Capo.ts:2806-2890 | "Check for updates" plans one node for each enabled data policy, in order, between two commits |
| UpgradeOrder.PlansThrowExactly | src/Capo.ts:2793-2890 | Planning throws exactly when the manifest has something other than a policy under the settings' name, or under that of a role to be set up |
| UpgradeOrder.RoleNodeBuilds | src/delegation/DelegatedDataContract.ts:756-820 | A role's node builds the install, its reference script and its commit in this order; or only a reference script gone missing; or nothing |
| UpgradeScripts.RoleNodeServes | src/delegation/DelegatedDataContract.ts:756-820 | A role's node that completes leaves its policy with the role's prefix, the configuration and the script its bundle put forward, or as it was when that was up to date, and every other policy alone |
| UpgradeScripts.RolesServed | src/Capo.ts:2820-2890 | No later role node undoes that |
| UpgradeScripts.UpgradeServesEveryRole | src/Capo.ts:2793-2899 | So an upgrade that completes has done it for every enabled role |
| UpgradeProgress.InstallFailsSoftly | src/Capo.ts:4323-4399 | With a fresh seed and trusted scripts an install fails only by not being needed, and then its policy is there or on its way |
| UpgradeProgress.SetupCompletes | src/delegation/DelegatedDataContract.ts:756-820 | A role's node completes and takes at most one seed |
| UpgradeProgress.UpgradeCompletes | src/Capo.ts:2793-2899 | With initial settings and a fresh seed for every role, the settings policy and the settings record, the upgrade completes |
| UpgradeProgress.FirstUpgradeCompletes | src/Capo.ts:2664-2735 | In particular the first upgrade of a newly minted charter does, and registers the settings if there are any |
| UpgradeProgress.RunUpgrade | src/Capo.ts:2793-2899 | The upgrade as run on the mutable batch ends where the specification does, with the roles set up and the settings registered, and completes under the same conditions |
| StateMachineInstance.Instance.Transition | src/StateMachine.ts:381-414 | Throws exactly when the table or a pending action refuses the call, changing nothing; otherwise releases the action and puts the hook on top of the calls; never changes the state |
| StateMachineInstance.Instance.FinishHook | src/StateMachine.ts:403-423 | A destroyed machine or a throwing hook ends the call for good, uncommitted; otherwise its listeners are told of what the table or the hook asked for; the state does not change |
| StateMachineInstance.Instance.CancelTransition | src/StateMachine.ts:426-430 | Cancels the call that the listener was told about and changes nothing else |
| StateMachineInstance.Instance.FinishListeners | src/StateMachine.ts:441-502 | The only method that changes the state: by one edge, from the state the call began in, to where the table or its hook said, at most once for a call |
| StateMachineInstance.Instance.ScheduleState | src/StateMachine.ts:234-271 | Refused exactly when an action is pending; otherwise the state is what is pending |
| StateMachineInstance.Instance.ScheduleTransition | src/StateMachine.ts:130-186 | Refused exactly when an action is pending; otherwise the transition is what is pending |
| StateMachineInstance.Instance.Fulfil | src/StateMachine.ts:163-179 | A settled promise is used up and enters no state yet; it calls a deferred transition if the table has it in the present state, tells the listeners of a deferred state, and does nothing when no action is pending or the machine is destroyed |
| StateMachineInstance.Instance.Fail | src/StateMachine.ts:180-183 | A rejected promise ends the call it held, uncommitted and for good, or clears the pending action |
| StateMachineInstance.Drive | src/StateMachine.ts:130-502 | Whatever is done to a new machine, its changes lead in one path from its initial state to the state it is in, and no call has committed twice |
| StateMachineSafety.OneConnectedPath | src/StateMachine.ts:381-502 | Under every interleaving the committed changes form one path from the initial state, each enabled in its source and going where the table or its own hook said |
| StateMachineSafety.CallCommitsAtMostOnce | src/StateMachine.ts:416-502 | No call commits twice, whatever is deferred, released or settled |
| StateMachineSafety.ThrowingHookNeverCommits | src/StateMachine.ts:405-412 | A call whose hook threw commits nothing, then or ever |
| StateMachineSafety.CancelledNeverCommits | src/StateMachine.ts:425-452 | A call that a listener cancelled commits nothing, then or ever |
| StateMachineSafety.RejectedNeverCommits | src/StateMachine.ts:258-268 | A rejected promise never commits the state it held |
| StateMachineSafety.DestroyedStartsNothing | src/StateMachine.ts:286-292 | After destruction only calls whose listeners were being told can still commit |
| StateMachineSafety.DestroyedAtRestIsFinal | src/StateMachine.ts:423-423 | Destroyed with no listener being told, the state never changes again |
| StateMachineSafety.PendingActionAdmits | src/StateMachine.ts:358-402 | While a state is deferred exactly the calls to it get through, while a transition is deferred none; how the can-transition query relates to that |
| StateMachineSafety.PendingActionBlocks | src/StateMachine.ts:390-402 | Any number of direct calls to other targets change nothing while an action is pending |
| StateMachineSafety.OneEffectPerArming | src/StateMachine.ts:463-479 | Deferred states take effect at most once for each time an action became pending: once per scheduling unless a deferring call found its action gone |
| StateMachineSafety.ReturnsExactly | src/StateMachine.ts:453-479 | With no action pending, a deferred state can take effect without being scheduled anew if and only if a call that deferred it is still telling its listeners |
| StateMachineSafety.ReleasedStateMayReturn | src/StateMachine.ts:453-479 | One scheduled state entered twice: released by a nested call, then made pending again |
| StateMachineSafety.UndisturbedCallCommits | src/StateMachine.ts:381-502 | A call that nothing interrupts commits its target or the state its hook asks for, releasing a deferred state, unless that name compares equal to `false` |
| StateMachineProgress.FulfilledTransitionIsCalled | src/StateMachine.ts:163-179 | A fulfilled deferred transition is called once, from the present state, to the table's target |
| StateMachineProgress.DeferredTransitionCommits | src/StateMachine.ts:130-186 | A deferred transition that only direct calls come between is committed when its promise is fulfilled; the calls are refused |
| StateMachineProgress.DeferredStateCommits | src/StateMachine.ts:453-479 | A state that a hook defers is entered by that call when its promise is fulfilled, if only calls to other targets come between |
| JsString.DigitsAreFalseExactly | src/StateMachine.ts:441-441 | A name of digits, signed or not, compares equal to `false` if and only if all of them are zeros |
| JsString.FractionsAreFalseExactly | src/StateMachine.ts:441-441 | The same holds of a decimal fraction of up to 321 places |
| JsString.PowersOfTen | src/StateMachine.ts:441-441 | A power of ten compares equal only when it underflows: from 1e-359 down it does, from 1e-321 up it does not |
| JsString.SpaceMakesNoDifference | src/StateMachine.ts:441-441 | White space around a name makes no difference to that |
| JsString.ZerosAreFalse | src/StateMachine.ts:441-441 | The empty name and names made of zeros compare equal to `false` |
| JsString.NamesAreNotFalse | src/StateMachine.ts:441-441 | Names that begin with a letter never do |
| ConsoleLogger.StackIsParse | src/UplcConsoleLogger.ts:77-128 | The stack of open groups gives the tree of a recursive parse; surplus closes change nothing |
| ConsoleLogger.NothingIsLost | src/UplcConsoleLogger.ts:77-128 | The groups hold every printed line, in the order of printing |
| ConsoleLogger.MessageIsKept | src/UplcConsoleLogger.ts:77-128 | What a message is read as keeps all its text: the lines of a printed one join to it again, and an opening or closing one loses only its mark, the first clamp and leading space |
| ConsoleLogger.Logger.LogPrint | src/UplcConsoleLogger.ts:77-128 | One message does to the mutable stack what it does to the stack of values; every open group stays its parent's last line |
| ConsoleLogger.SpineRepresents | src/UplcConsoleLogger.ts:26-43 | The objects reachable from the bottom of the stack are the whole tree, open groups included |
| ConsoleLogger.Replay | src/UplcConsoleLogger.ts:77-128 | Logging the messages in turn leaves the specified stack |
| ConsoleLogger.ReplayedIsParsed | src/UplcConsoleLogger.ts:77-137 | After any messages the object graph is the tree of the recursive parse, and has lost no line |
| RefScriptFee.RefScriptsFee | src/StellarTxnContext.ts:1750-1776 | The loop computes the specified fee and consumption per tier |
| RefScriptFee.TiersFillUp | src/StellarTxnContext.ts:1752-1763 | The tiers consume exactly the size, and all but the last are full |
| RefScriptFee.FeeIsNearExact | src/StellarTxnContext.ts:1750-1768 | The fee is within half a lovelace per tier of the sum over the bytes of 1.2^tier × rate |
| RefScriptFee.MultiplierIsPower | src/StellarTxnContext.ts:1750-1768 | The multiplier of a tier is 6/5 to the power of its number |
| RefScriptFee.FeeGrows | src/StellarTxnContext.ts:1750-1768 | The fee never decreases as the size grows |
| SlotTime.SlotRoundTrip | src/StellarTxnContext.ts:683-714 | A slot's time leads back to the slot, before and after the reference tip |
| SlotTime.WithinHalfASlot | src/StellarTxnContext.ts:700-714 | The slot found for a time begins within half a slot of it, halves going to the later slot |
| SlotTime.NearestSlot | src/StellarTxnContext.ts:700-714 | No other slot begins nearer |
| SlotTime.RoundingIsIdempotent | src/StellarTxnContext.ts:660-665 | Rounding a date to its slot twice is rounding it once |
| SlotTime.SlotsInOrder | src/StellarTxnContext.ts:700-714 | Later times never go to earlier slots |
| SlotTime.TxnClock.FutureDate | src/StellarTxnContext.ts:652-669 | Throws exactly on a facade or when the time is set already, leaving the time as it is; otherwise sets the time of the nearest slot |
| CoinSelection.CompareIsTotalPreorder | src/UtxoHelper.ts:162-179 | The comparator is a total preorder: pure-ada first, then less free lovelace |
| CoinSelection.SortIsExact | src/UtxoHelper.ts:162-179 | Sorting rearranges the list and leaves it in order |
| CoinSelection.SortIsStable | src/UtxoHelper.ts:162-179 | Utxos that tie keep their order |
| CoinSelection.SortedMeansPureFirst | src/UtxoHelper.ts:162-179 | In order means pure-ada utxos first, each part ascending by free lovelace |
| CoinSelection.SmallestUnusedIsLeast | src/UtxoHelper.ts:367-389 | The search finds an unreserved, sufficient, pure-ada utxo of least value, and fails only when there is none |
| CoinSelection.SparesAreExact | src/StellarTxnContext.ts:993-1030 | The spares are exactly the sufficient utxos that are neither reserved nor the wallet's collateral, or the pure-ada ones among them when there are any; the search throws exactly on a facade or when nothing is available |
| CoinSelection.SparesInOrder | src/StellarTxnContext.ts:993-1030 | The spares come smallest first |
| Utf8Scan.Scan | src/utils.ts:196-214 | Accepts exactly the byte strings that split into lead-and-continuation blocks of one to four bytes |
| Utf8Scan.WellFormedSplits | src/utils.ts:196-214 | Every string that is well formed by section 4 of RFC 3629 gets past the scan |
| Utf8Scan.OverlongPassesScan | src/utils.ts:196-214 | The converse fails: an overlong form gets past it |
| Utf8Scan.CheckValidUTF8 | src/utils.ts:196-218 | The check answers exactly as the full validator does |
| AdaPrinter.WholeInThrees | src/diagnostics.ts:258-258 | In a grouped whole part, counting from the right, exactly every fourth character is a separator |
| AdaPrinter.PrintedShape | src/diagnostics.ts:250-263 | A non-negative amount has a grouped whole part and a six-digit fraction in two threes |
| AdaPrinter.ReadsBackExactly | src/diagnostics.ts:250-263 | A printed amount reads back as itself if and only if it is not negative or is a whole number of ADA |

## Left out

- On-chain scripts, data bridges, CBOR and the hash itself: UPLC data are datatypes, the hash is a parameter.
- `CapoMinter`, `TxBatcher` and `BatchSubmitController`: the minter is taken to add the entries it is given and to grant its delegate; the batch is a log of events.
- Wallets, network clients, signing, script compilation, caches, timing and console output.
- Delegate caching and script-upgrade detection in `connectDelegateWithOnchainRDLink`: what the bundles report is a parameter.
- CharterTxns.MkTxnAddingNamedDelegate: `options.mintSetup` is taken to mint under the mint delegate without further mint values; `UutNames.TxnMintNames` has them.
- CharterRuns.RunBuilders: each builder is given a context of its own, which is its default; what a builder adds to another's context is in `CharterTxns`.
- CharterTxns.GrantAuthority: the utxo that holds an authority token is taken to hold no other token.
- Attaching scripts inside a grant adds reference inputs only and is left out of the balance.
- The grants that retire replaced policies run concurrently in the source; the model runs them in manifest order.
- TxnContext.Context.Spend: `parentTcx` and collateral are not modelled; nor are witnesses or the redeemer's content.
- `buildAndQueueAll` also registers nested transactions before their parent is resolved; a second registration has no effect in the source and is logged once here.
- `queueAddlTxns` and `submitTxnChain` hand the nested list on unchanged and are folded into `Batch.BuildAndQueueAll`; fix-ups before submitting, and confirmation, are not part of the scheduler model.
- UpgradePlan.PlanIsBounded: `mkAdditionalTxnsForCharter` is taken to add nothing, and no role's `setupCapoPolicy` to be overridden.
- UpgradeProgress.UpgradeCompletes: utxos that only pay fees are not counted among the seeds.
- The settings record's own token and its data policy are not counted among the charter's authority tokens; its seed is.
- StateMachineInstance.Instance.Fulfil: several callbacks of one promise settle independently here, which allows more interleavings than the source has.
- A hook that returns `false` falls through to the table's target in the source, and here; nothing is claimed about cancelling that way.
- No liveness is claimed for deferred actions: a listener's cancel or a stale settlement can leave one unfired.
- Listeners of "changed" and "state:entered" appear as further calls; a listener that throws is the same as one that returns.
- `formatGroup`, `formatLines` and `flushLines`, which lay the logger's tree out as text, and `reset`.
- RefScriptFee.RefScriptsFee: binary floating point is not modelled; `1.2` and the products are exact.
- AdaPrinter.ReadsBackExactly: amounts so large that `toFixed` switches to an exponent are not modelled.
- Unimplemented builders that throw, deprecated helpers, requirement texts and type-level code.
