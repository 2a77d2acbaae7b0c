/** The steps of IdentityStore.sol and the owner functions of HuntKeyAccount.sol: calls that
    run to their end without calling another contract. */
module IdentityStore {
  import opened Base
  import opened Words
  import opened TypedData
  import opened Storage

  // Half of the secp256k1 group order, the low-s bound of the contract.
  const SECP256K1_N_DIV_2: nat := 0x7FFFFFFFFFFFFFFFFFFFFFFFFFFFFFFF5D576E7357A4501DDFE92F46681B20A0

  datatype DirectOp =
    | AuthorizeKey(key: Address)
    | RevokeKey(key: Address)
    | RegisterProver(prover: Address)
    | RevokeProver(prover: Address)
    | SetGuardians(root: Address, guardianList: seq<Address>)
    | ValidateIntent(intent: Signed<Intent>)
    | ValidateDelegatedIntent(delegation: Signed<Delegation>, intent: Signed<Intent>)
    | GatedPurchase
    | FreezeIdentity(root: Address)
    | UnfreezeIdentity(root: Address)
    | CancelAllSessions(root: Address)
    | InitiateRecovery(oldRoot: Address, newRoot: Address, sig: Sig)
    | SupportRecovery(oldRoot: Address, sig: Sig)
    | CancelRecovery(oldRoot: Address)
    | FinalizeRecovery(oldRoot: Address)
    | SetEntryPoint(newEntryPoint: Address)
    | SetClaim(account: Address, claim: Bytes32, granted: bool)
    | Receive

  predicate Payable(op: DirectOp) {
    op.ValidateIntent? || op.ValidateDelegatedIntent? || op.Receive?
  }

  // _validateSigParams, then ecrecover, then the zero-address check.
  function Recover(c: Chain, m: Message, sig: Sig): Result<Address, Error> {
    if Value(sig.s) > SECP256K1_N_DIV_2 then Failure(MalleableSignature)
    else if sig.v != 27 && sig.v != 28 then Failure(InvalidVValue)
    else
      var signer := c.ecrecover(c.digestOf(m), sig.v, sig.r, sig.s);
      if signer == 0 then Failure(EcrecoverFailed) else Success(signer)
  }

  // What a guardian of oldRoot signs: the contract fills in its own chain id and nonce.
  function RecoveryRequest(c: Chain, s: State, oldRoot: Address, newRoot: Address): Message {
    RecoveryMessage(Recovery(oldRoot, newRoot, c.ShortId(), s.RecoveryNonce(oldRoot) % TWO_64))
  }

  function ValidateIntentStep(c: Chain, now: Timestamp, s: State, value: Uint256, p: Signed<Intent>): Outcome {
    if now > p.body.expiration then Reverted(IntentExpired)
    else if value > p.body.maxValue then Reverted(ValueExceedsCap)
    else match Recover(c, IntentMessage(p.body), p.sig)
    case Failure(e) => Reverted(e)
    case Success(signer) =>
      if signer !in s.authorizedKeys then Reverted(UnauthorizedKey)
      else if p.body.nonce != s.Nonce(signer) then Reverted(InvalidNonce)
      else if p.body.sessionEpoch != s.Epoch(signer) then Reverted(SessionEpochMismatch)
      else
        Ok(s.(nonces := s.nonces[signer := s.Nonce(signer) + 1]).Credit(value)
            .Emit(IntentAccepted(signer, p.body.nonce)), 0)
  }

  function ValidateDelegatedStep(c: Chain, now: Timestamp, s: State, value: Uint256,
                                 d: Signed<Delegation>, p: Signed<Intent>): Outcome
  {
    if now > d.body.expiration then Reverted(DelegationExpired)
    else match Recover(c, DelegationMessage(d.body), d.sig)
    case Failure(e) => Reverted(e)
    case Success(prover) =>
      if prover !in s.authorizedProvers then Reverted(UnregisteredProver)
      else if d.body.nonce != s.DelegationNonce(prover) then Reverted(InvalidDelegationNonce)
      else if now > p.body.expiration then Reverted(IntentExpired)
      else if value > p.body.maxValue then Reverted(ValueExceedsCap)
      else match Recover(c, IntentMessage(p.body), p.sig)
      case Failure(e) => Reverted(e)
      case Success(signer) =>
        if signer != d.body.delegate then Reverted(SignerNotDelegate)
        else if p.body.functionSig != d.body.scope then Reverted(ScopeMismatch)
        else if p.body.maxValue > d.body.maxValue then Reverted(ExceedsDelegationCap)
        else if p.body.nonce != s.Nonce(d.body.delegate) then Reverted(InvalidNonce)
        else
          Ok(s.(delegationNonces := s.delegationNonces[prover := s.DelegationNonce(prover) + 1],
                nonces := s.nonces[d.body.delegate := s.Nonce(d.body.delegate) + 1],
                gateOpen := true).Credit(value)
              .Emit(DelegatedAccepted(prover, d.body.delegate, d.body.nonce, p.body.nonce)), 0)
  }

  function InitiateRecoveryStep(c: Chain, now: Timestamp, s: State,
                                oldRoot: Address, newRoot: Address, sig: Sig): Outcome
  {
    if oldRoot !in s.authorizedProvers then Reverted(OldRootNotRegistered)
    else if newRoot == 0 then Reverted(InvalidNewRoot)
    else if s.Pending(oldRoot) != 0 then Reverted(RecoveryAlreadyPending)
    else match Recover(c, RecoveryRequest(c, s, oldRoot, newRoot), sig)
    case Failure(e) => Reverted(e)
    case Success(guardian) =>
      if guardian !in s.Guardians(oldRoot) then Reverted(NotAGuardian)
      else
        Ok(s.(pendingNewRoot := s.pendingNewRoot[oldRoot := newRoot],
              recoveryApprovals := s.recoveryApprovals[oldRoot := 1],
              recoveryApproved := s.recoveryApproved[oldRoot := s.Flags(oldRoot) + {guardian}],
              identityState := s.identityState[oldRoot := RecoveryPending])
            .Emit(Approved(oldRoot, ApprovalNow(s, now, oldRoot, newRoot, guardian, sig))), 0)
  }

  function ApprovalNow(s: State, now: Timestamp, root: Address, newRoot: Address, guardian: Address, sig: Sig): Approval {
    Approval(guardian, newRoot, s.RecoveryNonce(root) % TWO_64, now, s.Guardians(root), sig)
  }

  function SupportRecoveryStep(c: Chain, now: Timestamp, s: State, oldRoot: Address, sig: Sig): Outcome {
    var newRoot := s.Pending(oldRoot);
    if newRoot == 0 then Reverted(NoPendingRecovery)
    else match Recover(c, RecoveryRequest(c, s, oldRoot, newRoot), sig)
    case Failure(e) => Reverted(e)
    case Success(guardian) =>
      if guardian !in s.Guardians(oldRoot) then Reverted(NotAGuardian)
      else if guardian in s.Flags(oldRoot) then Reverted(AlreadyApproved)
      else if s.Approvals(oldRoot) + 1 >= TWO_256 then Reverted(Panic)
      else
        var count := s.Approvals(oldRoot) + 1;
        Ok(s.(recoveryApproved := s.recoveryApproved[oldRoot := s.Flags(oldRoot) + {guardian}],
              recoveryApprovals := s.recoveryApprovals[oldRoot := count],
              recoveryInitiatedAt :=
                if count >= GUARDIAN_THRESHOLD && s.InitiatedAt(oldRoot) == 0
                then s.recoveryInitiatedAt[oldRoot := now] else s.recoveryInitiatedAt)
            .Emit(Approved(oldRoot, ApprovalNow(s, now, oldRoot, newRoot, guardian, sig))), 0)
  }

  // The loop of _clearRecovery over the current guardian list.
  function ClearFlags(flags: map<Address, set<Address>>, root: Address, list: seq<Address>): map<Address, set<Address>>
    decreases |list|
  {
    if list == [] then flags
    else ClearFlags(flags[root := Read(flags, root, {}) - {list[0]}], root, list[1..])
  }

  function ClearRecovery(s: State, root: Address): State {
    s.(recoveryApproved := ClearFlags(s.recoveryApproved, root, s.Guardians(root)),
       pendingNewRoot := s.pendingNewRoot[root := 0],
       recoveryApprovals := s.recoveryApprovals[root := 0],
       recoveryInitiatedAt := s.recoveryInitiatedAt[root := 0])
  }

  function CancelRecoveryStep(s: State, sender: Address, oldRoot: Address): Outcome {
    if sender != oldRoot then Reverted(OnlyOldRootCanCancel)
    else if s.Pending(oldRoot) == 0 then Reverted(NoPendingRecovery)
    else
      var cleared := ClearRecovery(s, oldRoot);
      Ok(cleared.(identityState := cleared.identityState[oldRoot := Active]).Emit(Cancelled(oldRoot)), 0)
  }

  function FinalizeRecoveryStep(now: Timestamp, s: State, oldRoot: Address): Outcome {
    var newRoot := s.Pending(oldRoot);
    if newRoot == 0 then Reverted(NoPendingRecovery)
    else if s.Approvals(oldRoot) < GUARDIAN_THRESHOLD then Reverted(ThresholdNotMet)
    else if s.InitiatedAt(oldRoot) == 0 then Reverted(TimelockNotStarted)
    else if s.InitiatedAt(oldRoot) + RECOVERY_WINDOW >= TWO_256 then Reverted(Panic)
    else if now < s.InitiatedAt(oldRoot) + RECOVERY_WINDOW then Reverted(TimelockNotExpired)
    else if s.RecoveryNonce(oldRoot) + 1 >= TWO_256 then Reverted(Panic)
    else
      // The guardian list is deleted before _clearRecovery reads it.
      var moved := s.(authorizedProvers := s.authorizedProvers - {oldRoot} + {newRoot},
                      nonces := s.nonces[newRoot := 0],
                      delegationNonces := s.delegationNonces[newRoot := 0],
                      guardians := s.guardians[newRoot := s.Guardians(oldRoot)][oldRoot := []],
                      recoveryNonces := s.recoveryNonces[oldRoot := s.RecoveryNonce(oldRoot) + 1]);
      var cleared := ClearRecovery(moved, oldRoot);
      Ok(cleared.(identityState := cleared.identityState[oldRoot := Active][newRoot := Active])
          .Emit(Finalized(oldRoot, newRoot, now)), 0)
  }

  // The functions only the owner may call.
  predicate OwnerOnly(op: DirectOp) {
    op.AuthorizeKey? || op.RevokeKey? || op.RegisterProver? || op.RevokeProver? || op.SetGuardians?
    || op.FreezeIdentity? || op.UnfreezeIdentity? || op.SetEntryPoint? || op.SetClaim?
  }

  function OwnerStep(s: State, sender: Address, op: DirectOp): Outcome
    requires OwnerOnly(op)
  {
    if sender != s.owner then Reverted(NotOwner)
    else match op
    case AuthorizeKey(key) => Ok(s.(authorizedKeys := s.authorizedKeys + {key}), 0)
    case RevokeKey(key) => Ok(s.(authorizedKeys := s.authorizedKeys - {key}), 0)
    case RegisterProver(prover) => Ok(s.(authorizedProvers := s.authorizedProvers + {prover}), 0)
    case RevokeProver(prover) => Ok(s.(authorizedProvers := s.authorizedProvers - {prover}), 0)
    case SetGuardians(root, list) =>
      if |list| < 3 || |list| > 5 then Reverted(InvalidGuardianCount)
      else Ok(s.(guardians := s.guardians[root := list]), 0)
    case FreezeIdentity(root) =>
      Ok(s.(identityState := s.identityState[root := Frozen]).Emit(IdentityFrozen(root)), 0)
    case UnfreezeIdentity(root) =>
      if s.Status(root) != Frozen then Reverted(Error.NotFrozen)
      else Ok(s.(identityState := s.identityState[root := Active]).Emit(IdentityUnfrozen(root)), 0)
    case SetEntryPoint(a) => Ok(s.(entryPoint := a), 0)
    case SetClaim(account, claim, granted) =>
      Ok(s.(userClaims := if granted then s.userClaims + {(account, claim)} else s.userClaims - {(account, claim)}), 0)
  }

  function GatedPurchaseStep(s: State): Outcome {
    if !s.gateOpen then Reverted(DelegationRequired) else Ok(s.(gateOpen := false).Emit(GatedCall), 0)
  }

  function CancelAllSessionsStep(s: State, sender: Address, root: Address): Outcome {
    if sender != root && sender != s.owner then Reverted(NotAuthorized)
    else if s.Epoch(root) + 1 >= TWO_256 then Reverted(Panic)
    else
      Ok(s.(sessionEpoch := s.sessionEpoch[root := s.Epoch(root) + 1]).Emit(SessionsCancelled(root, s.Epoch(root) + 1)), 0)
  }

  // One call of a function that makes no external call.
  function Direct(c: Chain, now: Timestamp, s: State, sender: Address, value: Uint256, op: DirectOp): Outcome {
    if value != 0 && !Payable(op) then Reverted(NotPayable)
    else if OwnerOnly(op) then OwnerStep(s, sender, op)
    else match op
    case ValidateIntent(p) => ValidateIntentStep(c, now, s, value, p)
    case ValidateDelegatedIntent(d, p) => ValidateDelegatedStep(c, now, s, value, d, p)
    case GatedPurchase => GatedPurchaseStep(s)
    case CancelAllSessions(root) => CancelAllSessionsStep(s, sender, root)
    case InitiateRecovery(oldRoot, newRoot, sig) => InitiateRecoveryStep(c, now, s, oldRoot, newRoot, sig)
    case SupportRecovery(oldRoot, sig) => SupportRecoveryStep(c, now, s, oldRoot, sig)
    case CancelRecovery(oldRoot) => CancelRecoveryStep(s, sender, oldRoot)
    case FinalizeRecovery(oldRoot) => FinalizeRecoveryStep(now, s, oldRoot)
    case Receive => Ok(s.Credit(value), 0)
  }
}
