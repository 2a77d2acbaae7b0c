# HuntKey protocol: a verified model

HuntKey separates a cold root identity, warm action keys and one-time session keys. A root's guardians
can replace it after a 48-hour timelock. Action keys sign session certificates, session keys sign
intents, and the contracts check the whole chain before they forward a call. This project models the
contracts and the off-chain code that must agree with them, and proves what they keep over every run.

## How it is built

- `Base`, `Words`, `TypedData`: fixed-width integers, ABI words, the four EIP-712 messages and their
  digests (EIP-712, "Definition of encodeData"). The hash is an arbitrary function into 32 bytes. It is
  never assumed injective: equal digests give equal fields, or an explicit colliding pair of byte strings.
- `Eip712`: the standard's encodeType, encodeData and digest over structs given as lists of typed, named
  members, and the proof that the contracts' encodings and digests are those.
- `Storage`, `IdentityStore`, `Execution`: the deployed contract as a step function. A call out runs an
  arbitrary finite sequence of nested calls back into the account, by any sender, each of which may
  itself call out, fail or be undone. A revert gives back the state before the call. Besides storage the
  state holds the open calls and a history of events; history entries are undone with everything else.
- `HuntKeyAccount`: the same contract as a class, one method per public function, with the loops,
  in-place updates and rollback written out, proved against the step functions.
- `Linear`: every transaction, however nested, is a line of small committed steps that reaches the same
  state. The whole-run theorems are inductions over such lines.
- `Refusals`: for every public function its checks in order; a call reverts with the first it fails.
- `Calls`: when a call out goes through, and where a batch stops.
- `RecoverySafety`, `RecoveryProgress`, `RecoveryReplay`, `SessionKeys`, `Authority`, `Suspension`,
  `Permissions`, `Nonces`, `Configuration`, `Ether`, `ValidationData`: what holds over every run.
- `Scenarios`: runs from deployment in which the contract does what its documentation excludes. They play on
  any chain with any hash function; all they ask is that the people in them can sign.
- `RecoveryTracker`, `RustEncoding`: the Rust tracker, encoders and user-operation builder.
- `Paymaster`, `Monitor`: token collection for gas, and the dashboard folds.

Block times, `msg.sender`, `msg.value`, the hash, signature recovery and the behaviour of called code
are parameters. Block times are positive; no order among them is assumed. A signature is whatever
`ecrecover` maps to an address; the low-s and v checks in front of it are modelled.

## Where the code and its documentation differ

The model follows the code.

- The repository's README.md:81 and README.md:87 list a nonce check and a claim check among the checks of
  `execute`. It makes neither: its outcome does not depend on nonces and claims
  (`Authority.ExecuteIgnoresNoncesAndClaims`), and a run commits without either
  (`Scenarios.ExecuteWithoutClaimOrNonce`). `Authority.ExecuteCommits` states exactly what it checks.
- specs/threat_model.md:34-41 says that an operation keeps to the certified selector and target.
  `executeMulticall` compares neither `session.target` nor the selectors of the calls with anything, and bounds
  only the value it receives (`Authority.MulticallCommits`). It spends exactly the sum of the signed values
  (`Authority.MulticallSpendsSignedSum`). A run exceeds the cap, with another target and another selector than
  the certificate's (`Scenarios.MulticallAboveItsCap`).
- docs/USER_FLOW.md:188 says that after a new epoch all intents of the previous one fail.
  `validateDelegatedIntent` does not look at the epoch (`Authority.DelegatedDemands`,
  `Suspension.DelegatedIntentsIgnoreEpochs`) and accepts such an intent in
  `Scenarios.DelegatedIntentOfPassedEpoch`.
- specs/invariants.md:33-38, specs/protocol_overview.md:77 and specs/threat_model.md:77 say that
  `cancelAllSessions` voids the session certificates issued before. The epoch is in the intent: a
  certificate holds afterwards as before, for intents of the new epoch
  (`Authority.CertificatesOutliveEpochs`, `Scenarios.CertificateSurvivesCancelAllSessions`).
- specs/threat_model.md:10 names the signer's nonce as the protection against replay. It is, between two
  installations of the signer as a root (`Nonces.NoncesProtectBetweenInstallations`). An installation sets it
  back to 0 (`Nonces.InstalledRootStartsOver`), and one signed intent is accepted before and after
  (`Scenarios.IntentAcceptedTwice`).
- `finalizeRecovery` deletes the guardian list before `_clearRecovery` loops over it, so it clears no
  approval flag (`RecoveryProgress.FinalizeClearsNoFlag`), and `setGuardians` may run during a round. A
  flag left over turns a guardian away from a later round (`Scenarios.StaleFlagTurnsGuardianAway`). A
  recovery goes through exactly when the flag of the supporting guardian is down
  (`RecoveryProgress.RootIsRecoverable`); without these two events no flag is left over.
- docs/USER_FLOW.md:215 and ARCHITECTURE.md:183 say that execution is blocked while a recovery is pending. It
  is blocked by the identity state, which an unfreeze, or a finalize that installs the root, sets to Active
  with the recovery still pending: `Suspension.PendingAndActive` says exactly when, and
  `Scenarios.ExecuteWhileRecoveryPends` is a run in which an execute commits.
- Neither is an action stopped that was already open when its root was suspended by a re-entrant call. It makes
  its remaining calls and commits (`Scenarios.MulticallOutlivesSuspension`); nothing else does
  (`Suspension.SuspensionStopsRuns`).
- `pending_recoveries` is documented as the number of identities now in recovery (src/monitor/mod.rs:671)
  and counts events (`Monitor.PendingRecoveriesCountsEvents`).
- A token price may be set for an address without code; collection then succeeds and moves nothing
  (`Paymaster.CollectionPaysThePaymaster`, `Paymaster.CodelessTokenReportsPayment`).

Two further points, on which the documentation agrees or is silent:

- While an identity is in recovery, `validateUserOp` looks at the selector alone and leaves the session key
  unburned (`Authority.RecoveryOpDemands`), as docs/USER_FLOW.md:167 describes.
- The recovery nonce keeps a signature from serving two finalizations
  (`RecoveryReplay.FinalizationsShareNoSignature`). A cancel does not advance it, so the signatures of the
  cancelled round stay good (`RecoveryReplay.CancelledApprovalCountsAgain`,
  `Scenarios.CancelledSignatureStartsAgain`).

## Model

| member | source | states |
|---|---|---|
| RecoverySafety.RunsKeepRecovery | contracts/src/IdentityStore.sol:342-417 | in every run, for every root: the approval counter, timelock start, pending root and recovery nonce agree with the genuine, distinct approvals since the last cancel or finalize; identity state follows the events; guardian lists have length 0 or 3 to 5; every finalization had two distinct guardians who signed exactly that request, the second at least 48 hours earlier |
| RecoverySafety.LineKeepsRecovery | contracts/src/IdentityStore.sol:342-417 | every committed step, nested or not, keeps that invariant, from any state that has it |
| RecoverySafety.RoundIsSinceReset | contracts/src/IdentityStore.sol:377-417 | an approval is in the current round if and only if it was given with no cancel or finalize of that root after it |
| RecoverySafety.RecoveryCountersAgree | contracts/src/IdentityStore.sol:386-390 | in reachable states nothing is pending iff there are no approvals, the timelock runs iff there are two, and TimelockNotStarted cannot occur |
| RecoverySafety.CancelKeepsRound | contracts/src/IdentityStore.sol:377-384 | a cancel ends the round of its root, and of no other |
| RecoverySafety.FinalizeKeepsRound | contracts/src/IdentityStore.sol:386-407 | a finalize ends the round and advances the recovery nonce, also when old and new root are the same |
| RecoverySafety.ClearFlagsOf | contracts/src/IdentityStore.sol:409-413 | the clearing loop lowers exactly the flags of the guardians in the list, for that root only |
| RecoverySafety.StepEarnsFinalization | contracts/src/IdentityStore.sol:386-390 | no step commits a finalization that its round has not earned |
| RecoverySafety.StepKeepsGuardianCounts | contracts/src/IdentityStore.sol:191-195 | every step keeps guardian lists empty or 3 to 5 long, including the move to a new root |
| RecoveryProgress.UndisturbedFlagsStayExact | contracts/src/IdentityStore.sol:359-417 | while the guardians of r are not changed during a round and r is not finalized, the flags of r are exactly the approvers of the round |
| RecoveryProgress.UndisturbedRunsStayExact | contracts/src/IdentityStore.sol:359-417 | the same for whole runs from deployment |
| RecoveryProgress.CancelClearsListedFlags | contracts/src/IdentityStore.sol:377-384 | cancel removes the flags of listed guardians; it clears all flags if and only if every flag belongs to a listed guardian |
| RecoveryProgress.FinalizeClearsNoFlag | contracts/src/IdentityStore.sol:397-400 | finalize clears no approval flag of any root, because the list it clears by is already deleted |
| RecoveryProgress.TwoGuardiansCanRecover | contracts/src/IdentityStore.sol:342-407 | of a registered root with nothing pending and any flags left over: the start by one guardian always succeeds, the support by another iff its flag is down (AlreadyApproved otherwise), then the finalization iff 48 hours passed and the nonce can advance, moving registration and guardians; without the support it fails with ThresholdNotMet |
| RecoveryProgress.RootIsRecoverable | contracts/src/IdentityStore.sol:342-407 | after any run from deployment, the three transactions of such a recovery, sent by anyone, end in its finalization iff the supporter's flag is down, 48 hours pass and the nonce can advance |
| RecoveryProgress.UndisturbedRootIsRecoverable | contracts/src/IdentityStore.sol:342-407 | after a run that never changes the guardians during a round and never finalizes the root, no flag is in the way of any two guardians |
| RecoveryProgress.SupportStartsTimelock | contracts/src/IdentityStore.sol:367-372 | in any state, an approval raises the count by one and starts the timelock iff it is at least the second and none runs |
| RecoveryProgress.SupportNeedsClearFlag | contracts/src/IdentityStore.sol:359-375 | a signing guardian is accepted if and only if its flag is down |
| Scenarios.StaleFlagTurnsGuardianAway | contracts/src/IdentityStore.sol:359-417 | a run in which a guardian who has not approved this round is refused as AlreadyApproved |
| Scenarios.TheCastExists | contracts/src/IdentityStore.sol:211-263 | there is a chain, and there are people who can sign on it, for whom the runs below and above play |
| RecoveryReplay.FinalizationsShareNoSignature | contracts/src/IdentityStore.sol:399 | in every run, approvals behind two finalizations of a root were signed for the same request iff these are a multiple of 2^64 finalizations apart and install the same root |
| RecoveryReplay.FinalizationsShareNoDigest | contracts/src/IdentityStore.sol:254-263 | for a deployed contract, two finalizations fewer than 2^64 apart never rest on one signed digest, or the hash has collided |
| RecoveryReplay.CancelledApprovalCountsAgain | contracts/src/IdentityStore.sol:377-384 | in every run, an approval of a cancelled round starts a new round iff the root is registered and the signer a guardian |
| Scenarios.CancelledSignatureStartsAgain | contracts/src/IdentityStore.sol:342-384 | a run in which one transaction starts a recovery, a cancel ends it, and the same transaction starts it again |
| RecoveryReplay.DigestServesOneRequest | contracts/src/IdentityStore.sol:216-263 | a signed digest that deployed contracts accept for two messages is accepted for the same message by the same contract, or the hash has collided |
| RecoveryReplay.SignersSignTheDigest | contracts/src/IdentityStore.sol:211-263 | whom a deployed contract takes to have signed is recovered from the EIP-712 digest under its own domain |
| RecoveryTracker.PendingRecovery.AddApproval | src/recovery/mod.rs:47-53 | returns true iff the guardian is new, and then appends it; the list stays as it was otherwise |
| RecoveryTracker.PendingRecovery.ThresholdMet | src/recovery/mod.rs:56-58 | true iff at least the threshold of approvals is recorded |
| RecoveryTracker.PendingRecovery.TimelockExpired | src/recovery/mod.rs:66-71 | true iff 172800 seconds have passed since the recorded start; when the u64 sum overflows, a panic or the wrapped comparison, as the build has it |
| RecoveryTracker.TrackerCountsDistinct | src/recovery/mod.rs:47-58 | fed any guardians in any order and repetition, the tracker lists each once, its count is the number of different ones, and one more grows it iff it is new |
| RecoveryTracker.TrackerListsRound | src/recovery/mod.rs:47-58 | fed one round, the tracker lists its approvers in order without duplicates, each was new to it, and its start time is that of the second approval |
| RecoveryTracker.TrackerSimulatesChain | src/recovery/mod.rs:36-72 | in every reachable state the tracker counts what the contract counts, and finalizeRecovery is enabled iff threshold and timelock tests both pass (and the nonce can be incremented), if and only if the expiry fits a u64 or wraps to a time not yet reached |
| SessionKeys.SessionKeysAreSingleUse | contracts/src/ExecutionGateway.sol:94-142 | in every run, under re-entrancy and rollback, a session key is part of at most one committed success, and is marked used iff it was committed or burned by a failed validation |
| SessionKeys.LineKeepsKey | contracts/src/ExecutionGateway.sol:104-106 | at every point inside a transaction the burned keys are the committed, the softly burned and the in-flight ones, and no key is ever unmarked |
| SessionKeys.UsedKeysStayUsed | contracts/src/ExecutionGateway.sol:104-106 | used keys stay used in every continuation of every run |
| SessionKeys.ExecuteSpendsWithinCaps | contracts/src/ExecutionGateway.sol:109-141 | the ether execute sends equals what it received and what its events report, so the uint128 cast loses nothing, and is within the sum of the caps of the burned certificates, per session and in total |
| SessionKeys.SessionSpendsWithinItsCap | contracts/src/ExecutionGateway.sol:109-141 | over a whole run one session key spends at most the cap of its one certificate |
| Authority.ExecuteDemands | contracts/src/ExecutionGateway.sol:94-131 | execute passes its checks iff the shared signing-chain predicate holds and the call is the signed one: target, selector, calldata hash and value |
| Authority.MulticallDemands | contracts/src/HuntKeyAccount.sol:186-221 | executeMulticall passes its checks iff the shared predicate holds, the batch hash is the signed one, the value is within the intent and the claim is held |
| Authority.UserOpDemands | contracts/src/HuntKeyAccount.sol:105-179 | validateUserOp accepts a session operation iff the entry point calls, the shared predicate holds, targets match and the claim is held |
| Authority.RecoveryOpDemands | contracts/src/HuntKeyAccount.sol:114-131 | during a recovery an operation passes iff its call data begins with the selector of some recovery function, and is blocked otherwise; nothing else of it is checked and no key is burned |
| Authority.RecoveryOpsOfContract | contracts/src/HuntKeyAccount.sol:90-94 | of the deployed contract, the operations that pass during a recovery are those beginning with the first four hash bytes of the signatures of cancelRecovery, supportRecovery and finalizeRecovery |
| Authority.SoftBurnDemands | contracts/src/HuntKeyAccount.sol:133-170 | a failed validation burns the key iff the certificate half of the chain holds and a later soft check fails |
| Calls.CallGoesThrough | contracts/src/ExecutionGateway.sol:133-139 | a call out goes through iff the balance covers its value and the called code returns in the end, however much it re-enters before |
| Authority.ExecuteCommits | contracts/src/ExecutionGateway.sol:88-143 | execute commits iff its demands hold and the target returns in the end |
| Authority.ExecuteMakesItsCall | contracts/src/ExecutionGateway.sol:133-141 | a committed execute makes exactly one call itself, of its target with its value and call data; otherwise, a reverting target included, the state is untouched |
| Authority.ExecuteIgnoresNoncesAndClaims | contracts/src/ExecutionGateway.sol:94-131 | the checks of execute have the same outcome under any nonces, delegation nonces and claims |
| Scenarios.ExecuteWithoutClaimOrNonce | contracts/src/ExecutionGateway.sol:88-143 | a run in which execute commits without the claim its intent requires and with a nonce that is not the signer's |
| Authority.MulticallCommits | contracts/src/HuntKeyAccount.sol:186-243 | executeMulticall commits iff its demands hold, every call aims at the signed target, and each call in turn is covered by the balance and returns |
| Authority.RevertingCallUndoesMulticall | contracts/src/HuntKeyAccount.sol:232-237 | one call whose code reverts in the end leaves the whole multicall without effect |
| Calls.BatchStopsAtFirstFailure | contracts/src/HuntKeyAccount.sol:228-239 | a batch that stops has made every call before some call k and not that one, and its error names k and the cause |
| Authority.MulticallSpendsSignedSum | contracts/src/HuntKeyAccount.sol:225-239 | a committed multicall sends at its own depth exactly the sum of the signed values, so it is within its cap iff that sum is |
| Scenarios.MulticallAboveItsCap | contracts/src/HuntKeyAccount.sol:212-239 | a run in which a multicall sends 5 wei of the account under a certificate of cap 0, for another target and another selector |
| Authority.UserOpCommits | contracts/src/HuntKeyAccount.sol:105-179 | validateUserOp reports a valid signature iff the entry point calls without value, the recovery or session conditions hold, and the missing funds are there and taken |
| Authority.RefusedPreFundBurnsKey | contracts/src/HuntKeyAccount.sol:171-174 | pre-funding that is not taken fails the signature without a revert, sends nothing and leaves only the burned key of a session operation |
| Authority.AcceptedOpSendsMissingFunds | contracts/src/HuntKeyAccount.sol:124-127 | an accepted operation sends at its own depth exactly the missing funds to the entry point, or nothing |
| Authority.RunsAreAuthorized | contracts/src/HuntKeyAccount.sol:105-243 | in every run, each execute, multicall or session operation that commits, nested or not, began in a state in which the shared signing-chain predicate held |
| Refusals.RecoverRefuses | contracts/src/IdentityStore.sol:211-263 | a signature is accepted, for the signer the precompile gives, iff s is in the lower half of the group order, v is 27 or 28 and the signer is not zero; otherwise it fails with the first of these |
| Refusals.DirectRefuses | contracts/src/IdentityStore.sol:147-417 | every function without calls out commits iff it passes all its checks and reverts with the first it fails, in the order of the source, for all arguments, callers and values |
| Refusals.ExecuteRefuses | contracts/src/ExecutionGateway.sol:88-143 | the same for execute, whose last check is the forwarded call |
| Refusals.MulticallRefuses | contracts/src/HuntKeyAccount.sol:186-243 | the same for executeMulticall, and after its checks the index and cause of the first failing call |
| Refusals.UserOpRefuses | contracts/src/HuntKeyAccount.sol:105-179 | validateUserOp reverts exactly for value, caller, undecodable data, a blocked operation, a bad signature encoding or a missing claim, in this order, and otherwise answers |
| Authority.MulticallIsAllOrNothing | contracts/src/HuntKeyAccount.sol:222-242 | on success the calls made at that depth are exactly the signed array in order, all to the signed target, whatever the callees do; on any failure the state is untouched |
| Suspension.SuspensionStopsLines | contracts/src/HuntKeyAccount.sol:114-135 | from any state in which r is suspended and until a releasing step, no execute, multicall or session operation of r begins; with none open at the start none begins, calls out or completes; with one open at the start and none at the end, one did go on |
| Suspension.SuspensionStopsRuns | contracts/src/ExecutionGateway.sol:94-95 | at whatever point of a run r becomes suspended, nested or not, something is done for r until its release if and only if an action of r was open at that point |
| Suspension.RecoverySuspendsRuns | contracts/src/IdentityStore.sol:342-357 | the same from every committed initiateRecovery(r), also a re-entrant one, until cancel, finalize, unfreeze of r or a finalize that installs r |
| Suspension.PendingAndActive | contracts/src/IdentityStore.sol:326-331 | in every run, a root with a recovery pending is Active if and only if it was unfrozen, or installed by another finalize, since the round began and not frozen after that |
| Permissions.StateChangesByItsSteps | contracts/src/IdentityStore.sol:320-407 | no step leads from RecoveryPending to Active but a cancel or finalize of the root or a finalize that installs it; from Frozen also the unfreeze; none to RecoveryPending but its initiateRecovery, none to Frozen but its freeze |
| Permissions.UnfreezesEndFreezes | contracts/src/IdentityStore.sol:326-331 | in every run each unfreeze of a root followed a freeze of it with no cancel, finalize or start of a recovery in between |
| Permissions.OnlyThePermittedCall | contracts/src/IdentityStore.sol:333-384 | in every run, nested calls included, every committed cancelRecovery came from that root, every cancelAllSessions from the root or the owner, every owner function from the owner |
| Permissions.EpochsCountCancellations | contracts/src/IdentityStore.sol:333-338 | in every run the epoch of a root is the number of its committed cancelAllSessions |
| Scenarios.MulticallOutlivesSuspension | contracts/src/HuntKeyAccount.sol:225-239 | a run in which the first call of a multicall re-enters with a recovery of its root, and the second call and the multicall still commit |
| Scenarios.ExecuteWhileRecoveryPends | contracts/src/IdentityStore.sol:320-331 | a run in which a root is put in recovery, frozen, unfrozen and then executes with the recovery pending |
| Suspension.PassedEpochsAreDead | contracts/src/IdentityStore.sol:333-338 | epochs never fall, and once the epoch of r has passed e no continuation accepts an intent of epoch at most e for r |
| Suspension.CancelAllSessionsIsFinal | contracts/src/IdentityStore.sol:333-338 | after cancelAllSessions(r) that holds for the epoch it ended, in every continuation |
| Authority.DelegatedDemands | contracts/src/IdentityStore.sol:290-314 | validateDelegatedIntent accepts iff delegation and intent are live, signed by a registered prover and the delegate with their nonces, and within scope, cap and value; no epoch is among the conditions |
| Suspension.DelegatedIntentsIgnoreEpochs | contracts/src/IdentityStore.sol:290-314 | what validateDelegatedIntent does is the same under any epochs |
| Scenarios.DelegatedIntentOfPassedEpoch | contracts/src/IdentityStore.sol:290-338 | a run in which a delegated intent of epoch 0 is accepted after its signer's epoch became 1 |
| Authority.CertificatesOutliveEpochs | contracts/src/IdentityStore.sol:333-338 | cancelAllSessions leaves every certificate as good as it was, and those of the root authorize exactly the fitting intents of the new epoch |
| Scenarios.CertificateSurvivesCancelAllSessions | contracts/src/ExecutionGateway.sol:88-143 | a run in which an execute commits under a certificate issued before cancelAllSessions |
| Nonces.NoncesAreConsecutive | contracts/src/IdentityStore.sol:267-316 | in every run, the intent nonces accepted from a signer by both validators since it was last installed are 0, 1, 2 and so on in order, likewise delegation nonces, and every gatedPurchase has a delegated validation of its own |
| Nonces.LineKeepsNonces | contracts/src/IdentityStore.sol:267-316 | every committed step keeps that |
| Nonces.NoncesProtectBetweenInstallations | contracts/src/IdentityStore.sol:267-314 | in every run no nonce of a signer is accepted twice without an installation of the signer in between, so at most once more than there are installations |
| Nonces.InstalledRootStartsOver | contracts/src/IdentityStore.sol:395-396 | right after a finalize, an intent of the new root is accepted iff it has nonce 0, is live, authorized, of the current epoch and within its value, whether accepted before or not |
| Scenarios.IntentAcceptedTwice | contracts/src/IdentityStore.sol:386-407 | a run in which one signed intent is accepted before and after its signer replaces a root |
| ValidationData.PackingIsInvertible | contracts/src/HuntKeyAccount.sol:79-87 | the packed word fits 256 bits and shift and mask decoding gives back flag, validUntil and validAfter, for all inputs |
| ValidationData.AcceptedOperationReportsExpiration | contracts/src/HuntKeyAccount.sol:172-178 | an accepted operation reports no failure, and validUntil is its session's expiration iff that is below 2^48 |
| ValidationData.ValidationReportsOutcome | contracts/src/HuntKeyAccount.sol:105-179 | the word a validation returns decodes to a failed signature iff the operation was not accepted or could not pre-fund, and otherwise to the session's expiration cut to 48 bits |
| ValidationData.OrOfDisjoint | contracts/src/HuntKeyAccount.sol:79-87 | or-ing shifted fields that do not overlap is adding them |
| Configuration.OnlyTheOwnerConfigures | contracts/src/IdentityStore.sol:147-195 | in every run the owner never changes, every committed call of an owner function came from the owner, and keys, provers, claims, guardian lists and entry point are what those calls and the finalized recoveries said last |
| Configuration.LineConfigures | contracts/src/HuntKeyAccount.sol:50-63 | the same for every line of steps from any state |
| Ether.EtherIsConserved | contracts/src/ExecutionGateway.sol:133-141 | in every run of the modelled functions, which addDeposit is not among, the balance is what committed calls brought in less what the account's own committed calls took out |
| Linear.TransactionIsALine | contracts/src/ExecutionGateway.sol:133-141 | a transaction with arbitrary re-entrancy and rollback reaches the same state as a line of committed steps, leaves no call open and adds nothing to the calls recorded at outer depths |
| Linear.BatchIsALine | contracts/src/HuntKeyAccount.sol:225-239 | the multicall loop is a line of steps that makes exactly the calls of the batch, in order, at its own depth |
| Linear.RunIsALine | contracts/src/ExecutionGateway.sol:88-143 | a run of blocks is one line of steps, with no call open between blocks |
| TypedData.DigestBindsEveryField | src/intents/mod.rs:64-102 | two equal signing digests have the same struct type, fields, chain id and contract, or an explicit pair of different byte strings with the same hash is produced |
| TypedData.IntentEncodingIsFlat | contracts/src/IdentityStore.sol:225-241 | the contract's three-part encoding of an intent is one flat list of 18 words |
| Eip712.DigestIsEip712 | contracts/src/IdentityStore.sol:216-263 | the digest of every message is the EIP-712 digest of its members, in the order, under the names and with the types of the type string, in the domain HuntKey version 1 |
| Eip712.IntentTypeIsSpelled | contracts/src/IdentityStore.sol:41-44 | the type string of the intent is encodeType of the list of members that is encoded |
| Eip712.IntentData | contracts/src/IdentityStore.sol:225-241 | the three-part encoding is the type hash followed by encodeData of the members |
| Eip712.SessionTypeIsSpelled | contracts/src/ExecutionGateway.sol:59-81 | the same for the session certificate |
| RustEncoding.LeftPad32 | src/core/mod.rs:154-158 | the word is zeros followed by the data, for any data of at most 32 bytes |
| RustEncoding.RightPad32 | src/core/mod.rs:162-166 | the word is the data followed by zeros |
| RustEncoding.U64ToWord | src/core/mod.rs:169-171 | equals the contract's ABI word of the number |
| RustEncoding.U128ToWord | src/core/mod.rs:174-176 | equals the contract's ABI word of the number |
| RustEncoding.AddressToWord | src/core/mod.rs:179-181 | equals the ABI word of the 160-bit number the bytes denote |
| RustEncoding.AddressesStayApart | src/core/mod.rs:179-181 | different byte addresses denote different addresses on chain |
| RustEncoding.DomainSeparator | src/core/mod.rs:188-200 | the hash of exactly the contract's domain encoding |
| RustEncoding.IntentBuffer | src/intents/mod.rs:64-90 | the buffer is byte for byte the contract's three-part encoding |
| RustEncoding.IntentSigningHash | src/intents/mod.rs:93-102 | the returned hash is the EIP-712 digest of the Rust struct's members under its chain and the given address; it is what a deployed contract recovers the signer from exactly when both are its own, or there is a hash collision |
| RustEncoding.DelegationSigningHash | src/intents/mod.rs:210-222 | the same for delegations |
| RustEncoding.SessionSigningHash | src/sessions/mod.rs:127-139 | the same for session certificates |
| RustEncoding.RecoverySigningHash | src/recovery/mod.rs:88-100 | the same for recovery requests |
| RustEncoding.DigestSignsFor | contracts/src/IdentityStore.sol:216-223 | a digest under a claimed domain is the deployed contract's own digest when chain and address match, and otherwise only by a given hash collision |
| RustEncoding.UserOperationBuilder.Build | src/intents/mod.rs:392-422 | every packed word decodes, big-endian, to what the setters stored, the gas halves in the order callGasLimit, verificationGasLimit and maxFeePerGas, maxPriorityFeePerGas |
| RustEncoding.PackHalves | src/intents/mod.rs:397-409 | the two 16-byte halves decode to the two numbers |
| HuntKeyAccount.Account.constructor | contracts/src/IdentityStore.sol:152-163 | a deployed account is the initial state of every run |
| HuntKeyAccount.Account.IsGuardian | contracts/src/IdentityStore.sol:201-207 | the search loop returns true iff the candidate is in the root's list |
| HuntKeyAccount.Account.SetGuardians | contracts/src/IdentityStore.sol:191-195 | the whole new state, or NotOwner or InvalidGuardianCount |
| HuntKeyAccount.Account.ValidateIntent | contracts/src/IdentityStore.sol:267-278 | the whole new state or the first failing check |
| HuntKeyAccount.Account.ValidateDelegatedIntent | contracts/src/IdentityStore.sol:290-314 | the whole new state or the first failing check, with the early delegation-nonce increment undone on failure |
| HuntKeyAccount.Account.GatedPurchase | contracts/src/IdentityStore.sol:284-316 | passes only through an open gate and closes it |
| HuntKeyAccount.Account.UnfreezeIdentity | contracts/src/IdentityStore.sol:326-331 | only a frozen identity becomes Active, pending recovery or not |
| HuntKeyAccount.Account.CancelAllSessions | contracts/src/IdentityStore.sol:333-338 | root or owner raises the epoch by one |
| HuntKeyAccount.Account.InitiateRecovery | contracts/src/IdentityStore.sol:342-357 | the whole new state or the first failing check |
| HuntKeyAccount.Account.SupportRecovery | contracts/src/IdentityStore.sol:359-375 | the whole new state or the first failing check |
| HuntKeyAccount.Account.LowerFlags | contracts/src/IdentityStore.sol:409-413 | the loop over the guardian array computes the flag map of the specification |
| HuntKeyAccount.Account.CancelRecovery | contracts/src/IdentityStore.sol:377-384 | the whole new state or the first failing check |
| HuntKeyAccount.Account.FinalizeRecovery | contracts/src/IdentityStore.sol:386-407 | the whole new state or the first failing check, in the order of the source's writes |
| HuntKeyAccount.Account.Execute | contracts/src/ExecutionGateway.sol:88-143 | checks, burn, forwarded call with re-entrancy and event meet the specification |
| HuntKeyAccount.Account.ExecuteMulticall | contracts/src/HuntKeyAccount.sol:186-243 | checks, burn and call loop meet the specification |
| HuntKeyAccount.Account.MakeCalls | contracts/src/HuntKeyAccount.sol:225-242 | the loop makes the calls in order and fails with the index of the first failing one |
| HuntKeyAccount.Account.AdmitUserOp | contracts/src/HuntKeyAccount.sol:105-170 | the verdict of the specification, with the key burned exactly when it says so |
| HuntKeyAccount.Account.ValidateUserOp | contracts/src/HuntKeyAccount.sol:105-179 | checks, burn, pre-funding with re-entrancy and validation data meet the specification |
| HuntKeyAccount.Account.CallContract | contracts/src/HuntKeyAccount.sol:225-239 | a failed call out leaves every field as it was; a successful one commits the callee's re-entrant calls |
| HuntKeyAccount.Account.Transact | contracts/src/ExecutionGateway.sol:88-143 | every public call commits the state its specification gives, or fails with that error and leaves every field as it was |
| Paymaster.HuntKeyPaymaster.ValidatePaymasterUserOp | contracts/src/HuntKeyPaymaster.sol:85-112 | the context or the first failing check, for every length and mode of paymasterAndData |
| Paymaster.HuntKeyPaymaster.PostOp | contracts/src/HuntKeyPaymaster.sol:115-140 | the charged token's ledger changes as its transferFrom says, all others stay; a call that fails or answers false is refused, no answer is accepted, and a failure changes nothing |
| Paymaster.HuntKeyPaymaster.SetTokenGasPrice | contracts/src/HuntKeyPaymaster.sol:76-79 | the owner sets one price and leaves the others |
| Paymaster.HuntKeyPaymaster.SetSponsoredAccount | contracts/src/HuntKeyPaymaster.sol:68-71 | the owner adds or removes one account and leaves the others |
| Paymaster.Erc20.Move | contracts/test/PolicyGuard.t.sol:1801-1808 | moves balance and allowance, also to oneself, or has no effect |
| Paymaster.Erc20.TransferFrom | contracts/src/HuntKeyPaymaster.sol:132-137 | the call's reply in each token style: true or revert as the tests' token, a boolean, nothing, or always false |
| Paymaster.CollectionRoundsDown | contracts/src/HuntKeyPaymaster.sol:115-140 | over any run at changing prices, what is collected in a token never exceeds the exact charge and is short by less than one unit per settled operation |
| Paymaster.RunsKeepTheBooks | contracts/src/HuntKeyPaymaster.sol:127-139 | over any run every balance changes by exactly the recorded movements, and the sum of balances only by what was minted |
| Paymaster.ReceiptsMatchCharges | contracts/src/HuntKeyPaymaster.sol:115-140 | in runs where only collection from others touches the paymaster's own balance of the token, its real receipts lie within those bounds |
| Paymaster.TokenModeNamesItsToken | contracts/src/HuntKeyPaymaster.sol:100-108 | the token encoded in paymasterAndData is the one charged, and is admitted iff it has a price |
| Paymaster.ValidateAdmits | contracts/src/HuntKeyPaymaster.sol:85-112 | an operation is admitted iff mode 1 names a sponsored account or mode 2 a priced token, and each refusal has its own cause |
| Paymaster.SettleGoesThrough | contracts/src/HuntKeyPaymaster.sol:115-140 | a settlement goes through iff there is nothing to collect or the token can pay the rounded amount, and each refusal has its own cause |
| Paymaster.AllowancesFollow | contracts/test/PolicyGuard.t.sol:1796-1808 | a transfer succeeds iff allowance and balance cover it without overflow and uses up that allowance only |
| Paymaster.OwnerSetsEntries | contracts/src/HuntKeyPaymaster.sol:68-79 | the owner alone sets prices and sponsorship, one entry at a time |
| Paymaster.CollectionPaysThePaymaster | contracts/src/HuntKeyPaymaster.sol:127-139 | a reported collection raises the paymaster's balance by the amount iff the address holds a token contract and the account is not the paymaster; then the account pays it and no other balance changes, and otherwise none does |
| Paymaster.CodelessTokenReportsPayment | contracts/src/HuntKeyPaymaster.sol:76-140 | a concrete run that prices an address without code, admits an operation and reports 100 units collected, of which nothing was |
| Monitor.DashboardState.Snapshot | src/monitor/mod.rs:695-728 | the loop counts each kind of event and the distinct identities of the whole log |
| Monitor.DashboardState.SnapshotInRange | src/monitor/mod.rs:731-766 | the loop returns what a snapshot of the log filtered by entries_in_range returns |
| Monitor.EventLog.RecordRecoveryStateChanged | src/monitor/mod.rs:551-572 | appends one entry, which counts as entering recovery iff the new state is RecoveryPending |
| Monitor.SnapshotsAgree | src/monitor/mod.rs:695-766 | snapshot equals snapshot_in_range over all times |
| Monitor.EachEventHasItsCounter | src/monitor/mod.rs:704-718 | one more event raises exactly its own counter, and active identities iff its identity is new |
| Monitor.SnapshotsSplit | src/monitor/mod.rs:731-766 | cutting a range at m cuts all four counters; active identities lie between the larger part and the sum |
| Monitor.FilterKeepsExactly | src/monitor/mod.rs:768-783 | the filters keep exactly the entries they select, with multiplicity |
| Monitor.FilterKeepsOrder | src/monitor/mod.rs:768-783 | the filters keep the order of the log |
| Monitor.PendingRecoveriesCountsEvents | src/monitor/mod.rs:710-715 | pending_recoveries is never below the number of identities in recovery, and equals it iff no recovery event ever concerned an identity already in recovery |
| Monitor.EndedRecoveryIsStillCounted | src/monitor/mod.rs:710-715 | a concrete log with nothing pending and a count of one |

## Left out

- Key derivation (BIP-39, BIP-32, HKDF), zeroization, secp256k1 signing and keccak internals.
- EntryPoint deposit functions of account and paymaster, the WebAssembly and TypeScript bindings, examples and the command line.
- ClaimVerifier.sol; only `checkClaim` is modelled, as a predicate on the granted claims.
- ABI encoding of the call array and of `UserOperation.signature`: the former is an arbitrary function, the latter a value that decodes or does not.
- Events without influence on a property (key, guardian, token and claim configuration) are not in the history.
- Gas, out-of-gas failures and the limit on the total supply of ether.
- Alerts, guardian notifications, JSON export and hex formatting of the monitor.
- Tokens that call back, charge a fee or return malformed data, and `tokenDebt`, which nothing writes.
- RecoveryTracker.TrackerSimulatesChain: the start time fits the tracker's u64 field.
- Ether.EtherIsConserved: addDeposit, which passes value on to the entry point, is no step of the model.
- Suspension.SuspensionStopsRuns: validateIntent and validateDelegatedIntent do not look at the identity state and are not counted as acting for a root.
- RustEncoding.IntentSigningHash: signing and recovering with a real key is not modelled, only the digest that is signed.
- Paymaster.HuntKeyPaymaster.PostOp: the context is the decoded triple, since the entry point hands back what validation returned.
