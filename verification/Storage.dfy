/** Contract storage, the open calls of the current transaction and the history of
    emitted events, as one value. */
module Storage {
  import opened Base
  import opened TypedData

  datatype Error =
    | NotOwner | InvalidGuardianCount | MalleableSignature | InvalidVValue | EcrecoverFailed | IntentExpired
    | ValueExceedsCap | UnauthorizedKey | InvalidNonce | DelegationRequired | DelegationExpired
    | UnregisteredProver | InvalidDelegationNonce | SignerNotDelegate | ScopeMismatch | ExceedsDelegationCap
    | NotFrozen | NotAuthorized | OldRootNotRegistered | InvalidNewRoot | RecoveryAlreadyPending | NotAGuardian
    | NoPendingRecovery | AlreadyApproved | OnlyOldRootCanCancel | ThresholdNotMet | TimelockNotStarted
    | TimelockNotExpired | SessionEpochMismatch
    | IdentityNotActive | SessionExpired | SessionChainMismatch | SessionParentNotAuthorized
    | SignerNotDeclaredParent | SessionKeyAlreadyUsed | IntentNotSignedBySessionKey | IntentScopeMismatch
    | IntentTargetMismatch | CallTargetMismatch | CalldataTooShort | SelectorMismatch | CalldataHashMismatch
    | IntentExceedsSessionCap
    | OnlyEntryPoint | RecoveryBlocksUserOp | ClaimNotSatisfied | MulticallFailed(index: nat)
    | CallReverted     // the callee's own revert data, bubbled up by execute
    | NotPayable       // value sent to a function that is not payable
    | Panic            // checked arithmetic overflow
    | MalformedInput   // abi.decode of UserOperation.signature fails

  datatype IdentityState = Active | RecoveryPending | Frozen

  const RECOVERY_WINDOW: nat := 172800  // 48 hours
  const GUARDIAN_THRESHOLD: nat := 2

  datatype Sig = Sig(v: Byte, r: Bytes32, s: Bytes32)

  datatype Signed<+T> = Signed(body: T, sig: Sig)

  datatype Call = Call(target: Address, value: Uint256, data: Bytes)

  datatype RecoveryFunction = CancelSelector | SupportSelector | FinalizeSelector

  /** What a deployed contract takes from its surroundings. The hash, the digests it signs over,
      its function selectors, the signature recovery precompile and abi.encode of a call array
      are arbitrary functions here; DeployedOn gives the digests and selectors of the contract. */
  datatype Chain = Chain(
    chainId: Uint256,
    keccak: Hash,
    digestOf: Message -> Bytes32,
    selectorOf: RecoveryFunction -> Bytes4,
    ecrecover: (Bytes32, Byte, Bytes32, Bytes32) -> Address,
    encodeCalls: seq<Call> -> Bytes)
  {
    function ShortId(): Uint64 {
      chainId % TWO_64
    }
  }

  function SignatureOf(f: RecoveryFunction): string {
    match f
    case CancelSelector => "cancelRecovery(address)"
    case SupportSelector => "supportRecovery(address,uint8,bytes32,bytes32)"
    case FinalizeSelector => "finalizeRecovery(address)"
  }

  function FirstFour(hash: Bytes32): Bytes4 {
    hash[..4]
  }

  // The contract at address `self` of chain `chainId`: EIP-712 digests under its own domain.
  function DeployedOn(chainId: Uint256, self: Address, keccak: Hash,
                      ecrecover: (Bytes32, Byte, Bytes32, Bytes32) -> Address,
                      encodeCalls: seq<Call> -> Bytes): Chain
  {
    Chain(chainId, keccak, m => Digest(keccak, Domain(chainId, self), m),
          f => FirstFour(keccak(Ascii(SignatureOf(f)))), ecrecover, encodeCalls)
  }

  // c describes the contract deployed at address `self`.
  ghost predicate IsContractAt(c: Chain, self: Address) {
    c == DeployedOn(c.chainId, self, c.keccak, c.ecrecover, c.encodeCalls)
  }

  lemma ContractDigest(c: Chain, self: Address, m: Message)
    requires IsContractAt(c, self)
    ensures c.digestOf(m) == Digest(c.keccak, Domain(c.chainId, self), m)
  {
    hide Digest;
  }

  // ---------------------------------------------------------------------------
  // Open calls
  // ---------------------------------------------------------------------------

  datatype Kind = Execution | Multicall | UserOp | RecoveryOp

  /** A call of execute, executeMulticall or validateUserOp that has passed its checks and
      not returned yet: its certificate's cap, the value it received, the calls left to make. */
  datatype Frame = Frame(
    kind: Kind, session: Address, parent: Address, selector: Bytes4, target: Address,
    cap: Uint128, value: Uint256, todo: seq<Call>)
  {
    predicate BurnsKey() {
      !kind.RecoveryOp?
    }
  }

  datatype Frames = Idle | Push(top: Frame, below: Frames)
  {
    function Depth(): nat {
      if Idle? then 0 else 1 + below.Depth()
    }

    function Pop(): Frames {
      if Idle? then Idle else below
    }

    function DropCall(): Frames {
      if Idle? || top.todo == [] then this else Push(top.(todo := top.todo[1..]), below)
    }
  }

  // ---------------------------------------------------------------------------
  // History
  // ---------------------------------------------------------------------------

  /** One guardian's approval, with the guardian list at that moment and what was signed. */
  datatype Approval = Approval(
    guardian: Address, newRoot: Address, nonce: Uint64, at: nat, guardians: seq<Address>, sig: Sig)

  datatype Event =
    | IntentAccepted(signer: Address, nonce: nat)
    | DelegatedAccepted(prover: Address, delegate: Address, delegationNonce: nat, nonce: nat)
    | GatedCall
    | IdentityFrozen(root: Address)
    | IdentityUnfrozen(root: Address)
    | SessionsCancelled(root: Address, epoch: nat)
    | Approved(root: Address, approval: Approval)
    | Cancelled(root: Address)
    | Finalized(root: Address, newRoot: Address, at: nat)
    | Opened(frame: Frame)
    | SoftBurned(session: Address)
    | CalledOut(depth: nat, kind: Kind, session: Address, call: Call)
    | Executed(session: Address, parent: Address, target: Address, selector: Bytes4, value: Uint128)
    | MulticallExecuted(session: Address, parent: Address, selector: Bytes4)
    | UserOpValidated(session: Address, parent: Address)
    | RecoveryOpValidated(parent: Address)

  // Newest event last; a reverted call leaves none.
  datatype History = Start | Snoc(before: History, last: Event)

  // The event a finished frame emits; execute narrows msg.value to uint128.
  function CompletionOf(f: Frame): Event {
    match f.kind
    case Execution => Executed(f.session, f.parent, f.target, f.selector, f.value % TWO_128)
    case Multicall => MulticallExecuted(f.session, f.parent, f.selector)
    case UserOp => UserOpValidated(f.session, f.parent)
    case RecoveryOp => RecoveryOpValidated(f.parent)
  }

  // ---------------------------------------------------------------------------
  // State
  // ---------------------------------------------------------------------------

  datatype State = State(
    owner: Address,
    authorizedKeys: set<Address>,
    authorizedProvers: set<Address>,
    nonces: map<Address, Uint256>,
    delegationNonces: map<Address, Uint256>,
    guardians: map<Address, seq<Address>>,
    pendingNewRoot: map<Address, Address>,
    recoveryApprovals: map<Address, Uint256>,
    recoveryInitiatedAt: map<Address, Uint256>,
    recoveryApproved: map<Address, set<Address>>,
    recoveryNonces: map<Address, Uint256>,
    identityState: map<Address, IdentityState>,
    sessionEpoch: map<Address, Uint256>,
    gateOpen: bool,
    usedSessionKeys: set<Address>,
    entryPoint: Address,
    userClaims: set<(Address, Bytes32)>,
    balance: nat,
    frames: Frames,
    log: History)
  {
    function Nonce(a: Address): Uint256 { Read(nonces, a, 0) }
    function DelegationNonce(a: Address): Uint256 { Read(delegationNonces, a, 0) }
    function Guardians(r: Address): seq<Address> { Read(guardians, r, []) }
    function Pending(r: Address): Address { Read(pendingNewRoot, r, 0) }
    function Approvals(r: Address): Uint256 { Read(recoveryApprovals, r, 0) }
    function InitiatedAt(r: Address): Uint256 { Read(recoveryInitiatedAt, r, 0) }
    function Flags(r: Address): set<Address> { Read(recoveryApproved, r, {}) }
    function RecoveryNonce(r: Address): Uint256 { Read(recoveryNonces, r, 0) }
    function Status(r: Address): IdentityState { Read(identityState, r, Active) }
    function Epoch(r: Address): Uint256 { Read(sessionEpoch, r, 0) }

    predicate HoldsClaim(account: Address, claim: Bytes32) {
      claim == Zeros(32) || (account, claim) in userClaims
    }

    function Emit(e: Event): State {
      this.(log := Snoc(log, e))
    }

    function Credit(value: nat): State {
      this.(balance := balance + value)
    }

    // All checks passed: the session key is burned and the frame is open.
    function Open(f: Frame): State {
      this.(usedSessionKeys := if f.BurnsKey() then usedSessionKeys + {f.session} else usedSessionKeys,
            balance := balance + f.value,
            frames := Push(f, frames),
            log := Snoc(log, Opened(f)))
    }

    // The value of the call leaves the contract before the callee runs.
    function SendOut(call: Call): State
      requires call.value <= balance && frames.Push?
    {
      this.(balance := balance - call.value,
            frames := frames.DropCall(),
            log := Snoc(log, CalledOut(frames.Depth(), frames.top.kind, frames.top.session, call)))
    }

    // The frame returns and emits its event.
    function Close(): State
      requires frames.Push?
    {
      this.(frames := frames.Pop(), log := Snoc(log, CompletionOf(frames.top)))
    }

    function BurnSoftly(session: Address): State {
      this.(usedSessionKeys := usedSessionKeys + {session}, log := Snoc(log, SoftBurned(session)))
    }
  }

  datatype Outcome = Ok(st: State, data: nat) | Reverted(error: Error)

  // A freshly deployed account.
  function Deployed(owner: Address): State {
    State(owner, {}, {}, map[], map[], map[], map[], map[], map[], map[], map[], map[], map[],
          false, {}, 0, {}, 0, Idle, Start)
  }
}
