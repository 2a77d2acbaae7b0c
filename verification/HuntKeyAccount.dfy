/** The deployed contract (IdentityStore.sol, ExecutionGateway.sol, HuntKeyAccount.sol) as an object:
    one method per public function, proved against the steps of IdentityStore and Execution. A method
    that fails may leave changes behind; Transact, like the EVM, restores the storage it started from. */
module HuntKeyAccount {
  import opened Base
  import opened TypedData
  import opened Storage
  import Spec = IdentityStore
  import opened Execution

  class Account {
    const c: Chain
    var owner: Address
    var authorizedKeys: set<Address>
    var authorizedProvers: set<Address>
    var nonces: map<Address, Uint256>
    var delegationNonces: map<Address, Uint256>
    var guardians: map<Address, seq<Address>>
    var pendingNewRoot: map<Address, Address>
    var recoveryApprovals: map<Address, Uint256>
    var recoveryInitiatedAt: map<Address, Uint256>
    var recoveryApproved: map<Address, set<Address>>
    var recoveryNonces: map<Address, Uint256>
    var identityState: map<Address, IdentityState>
    var sessionEpoch: map<Address, Uint256>
    var gateOpen: bool
    var usedSessionKeys: set<Address>
    var entryPoint: Address
    var userClaims: set<(Address, Bytes32)>
    var balance: nat
    var frames: Frames
    var log: History

    function Now(): State
      reads this
    {
      State(owner, authorizedKeys, authorizedProvers, nonces, delegationNonces, guardians, pendingNewRoot,
            recoveryApprovals, recoveryInitiatedAt, recoveryApproved, recoveryNonces, identityState, sessionEpoch,
            gateOpen, usedSessionKeys, entryPoint, userClaims, balance, frames, log)
    }

    constructor (c: Chain, deployer: Address)
      ensures this.c == c && Now() == Deployed(deployer)
    {
      this.c := c;
      owner := deployer;
      authorizedKeys, authorizedProvers, usedSessionKeys, userClaims := {}, {}, {}, {};
      nonces, delegationNonces, guardians, pendingNewRoot := map[], map[], map[], map[];
      recoveryApprovals, recoveryInitiatedAt, recoveryApproved, recoveryNonces := map[], map[], map[], map[];
      identityState, sessionEpoch := map[], map[];
      gateOpen, entryPoint, balance, frames, log := false, 0, 0, Idle, Start;
    }

    // Put back every field, a few at a time.
    method Restore(s: State)
      modifies this
      ensures Now() == s
    {
      RestoreKeys(s);
      RestoreRoots(s);
      RestoreRounds(s);
      RestoreRest(s);
    }

    method RestoreKeys(s: State)
      modifies this`owner, this`authorizedKeys, this`authorizedProvers, this`nonces, this`delegationNonces
      ensures owner == s.owner && authorizedKeys == s.authorizedKeys && authorizedProvers == s.authorizedProvers
      ensures nonces == s.nonces && delegationNonces == s.delegationNonces
    {
      owner, authorizedKeys, authorizedProvers := s.owner, s.authorizedKeys, s.authorizedProvers;
      nonces, delegationNonces := s.nonces, s.delegationNonces;
    }

    method RestoreRoots(s: State)
      modifies this`guardians, this`recoveryNonces, this`identityState, this`sessionEpoch, this`entryPoint
      ensures guardians == s.guardians && recoveryNonces == s.recoveryNonces && identityState == s.identityState
      ensures sessionEpoch == s.sessionEpoch && entryPoint == s.entryPoint
    {
      guardians, recoveryNonces, identityState := s.guardians, s.recoveryNonces, s.identityState;
      sessionEpoch, entryPoint := s.sessionEpoch, s.entryPoint;
    }

    method RestoreRounds(s: State)
      modifies this`pendingNewRoot, this`recoveryApprovals, this`recoveryInitiatedAt, this`recoveryApproved
      ensures pendingNewRoot == s.pendingNewRoot && recoveryApprovals == s.recoveryApprovals
      ensures recoveryInitiatedAt == s.recoveryInitiatedAt && recoveryApproved == s.recoveryApproved
    {
      pendingNewRoot, recoveryApprovals := s.pendingNewRoot, s.recoveryApprovals;
      recoveryInitiatedAt, recoveryApproved := s.recoveryInitiatedAt, s.recoveryApproved;
    }

    method RestoreRest(s: State)
      modifies this`gateOpen, this`usedSessionKeys, this`userClaims, this`balance, this`frames, this`log
      ensures gateOpen == s.gateOpen && usedSessionKeys == s.usedSessionKeys && userClaims == s.userClaims
      ensures balance == s.balance && frames == s.frames && log == s.log
    {
      gateOpen, usedSessionKeys, userClaims := s.gateOpen, s.usedSessionKeys, s.userClaims;
      balance, frames, log := s.balance, s.frames, s.log;
    }

    // What a method owes its specification: the same error, or the same state and return value.
    predicate Meets(r: Result<nat, Error>, o: Outcome)
      reads this
    {
      match o
      case Ok(st, data) => r == Success(data) && Now() == st
      case Reverted(e) => r == Failure(e)
    }

    // -------------------------------------------------------------------------
    // Guardians and signatures
    // -------------------------------------------------------------------------

    method IsGuardian(root: Address, candidate: Address) returns (found: bool)
      ensures found <==> candidate in Now().Guardians(root)
      ensures Now() == old(Now())
    {
      var gs := Read(guardians, root, []);
      var i := 0;
      while i < |gs|
        invariant 0 <= i <= |gs|
        invariant candidate !in gs[..i]
      {
        if gs[i] == candidate {
          return true;
        }
        i := i + 1;
      }
      return false;
    }

    // -------------------------------------------------------------------------
    // Intents
    // -------------------------------------------------------------------------

    method ValidateIntent(now: Timestamp, value: Uint256, p: Signed<Intent>) returns (r: Result<nat, Error>)
      modifies this
      ensures Meets(r, Spec.ValidateIntentStep(c, now, old(Now()), value, p))
    {
      hide Spec.Recover;
      if now > p.body.expiration { return Failure(IntentExpired); }
      if value > p.body.maxValue { return Failure(ValueExceedsCap); }
      var recovered := Spec.Recover(c, IntentMessage(p.body), p.sig);
      if recovered.Failure? { return Failure(recovered.error); }
      var signer := recovered.value;
      if signer !in authorizedKeys { return Failure(UnauthorizedKey); }
      if p.body.nonce != Read(nonces, signer, 0) { return Failure(InvalidNonce); }
      if p.body.sessionEpoch != Read(sessionEpoch, signer, 0) { return Failure(SessionEpochMismatch); }
      nonces := nonces[signer := Read(nonces, signer, 0) + 1];
      balance := balance + value;
      log := Snoc(log, IntentAccepted(signer, p.body.nonce));
      assert Now() == old(Now()).(nonces := nonces, balance := balance, log := log);
      r := Success(0);
    }

    method ValidateDelegatedIntent(now: Timestamp, value: Uint256, d: Signed<Delegation>, p: Signed<Intent>)
      returns (r: Result<nat, Error>)
      modifies this
      ensures Meets(r, Spec.ValidateDelegatedStep(c, now, old(Now()), value, d, p))
    {
      hide Spec.Recover;
      if now > d.body.expiration { return Failure(DelegationExpired); }
      var recovered := Spec.Recover(c, DelegationMessage(d.body), d.sig);
      if recovered.Failure? { return Failure(recovered.error); }
      var prover := recovered.value;
      if prover !in authorizedProvers { return Failure(UnregisteredProver); }
      if d.body.nonce != Read(delegationNonces, prover, 0) { return Failure(InvalidDelegationNonce); }
      // Counted before the intent is looked at; a later failure is rolled back.
      CountDelegation(prover);
      if now > p.body.expiration { return Failure(IntentExpired); }
      if value > p.body.maxValue { return Failure(ValueExceedsCap); }
      recovered := Spec.Recover(c, IntentMessage(p.body), p.sig);
      if recovered.Failure? { return Failure(recovered.error); }
      if recovered.value != d.body.delegate { return Failure(SignerNotDelegate); }
      if p.body.functionSig != d.body.scope { return Failure(ScopeMismatch); }
      if p.body.maxValue > d.body.maxValue { return Failure(ExceedsDelegationCap); }
      if p.body.nonce != Read(nonces, d.body.delegate, 0) { return Failure(InvalidNonce); }
      OpenGate(d.body.delegate, value, DelegatedAccepted(prover, d.body.delegate, d.body.nonce, p.body.nonce));
      r := Success(0);
    }

    method CountDelegation(prover: Address)
      requires Now().DelegationNonce(prover) + 1 < TWO_256
      modifies this
      ensures Now() == old(Now()).(delegationNonces := old(delegationNonces)[prover := old(Now()).DelegationNonce(prover) + 1])
    {
      delegationNonces := delegationNonces[prover := Read(delegationNonces, prover, 0) + 1];
    }

    method OpenGate(delegate: Address, value: Uint256, accepted: Event)
      requires Now().Nonce(delegate) + 1 < TWO_256
      modifies this
      ensures Now() == old(Now()).(nonces := old(nonces)[delegate := old(Now()).Nonce(delegate) + 1], gateOpen := true)
                                  .Credit(value).Emit(accepted)
    {
      nonces := nonces[delegate := Read(nonces, delegate, 0) + 1];
      gateOpen := true;
      CreditAndEmit(value, accepted);
    }

    method CreditAndEmit(value: Uint256, e: Event)
      modifies this`balance, this`log
      ensures Now() == old(Now()).Credit(value).Emit(e)
    {
      balance := balance + value;
      log := Snoc(log, e);
    }

    method GatedPurchase() returns (r: Result<nat, Error>)
      modifies this
      ensures Meets(r, Spec.GatedPurchaseStep(old(Now())))
    {
      if !gateOpen { return Failure(DelegationRequired); }
      gateOpen := false;
      log := Snoc(log, GatedCall);
      r := Success(0);
    }

    // -------------------------------------------------------------------------
    // Social recovery
    // -------------------------------------------------------------------------

    method InitiateRecovery(now: Timestamp, oldRoot: Address, newRoot: Address, sig: Sig) returns (r: Result<nat, Error>)
      modifies this
      ensures Meets(r, Spec.InitiateRecoveryStep(c, now, old(Now()), oldRoot, newRoot, sig))
    {
      hide Spec.Recover;
      if oldRoot !in authorizedProvers { return Failure(OldRootNotRegistered); }
      if newRoot == 0 { return Failure(InvalidNewRoot); }
      if Read(pendingNewRoot, oldRoot, 0) != 0 { return Failure(RecoveryAlreadyPending); }
      var recovered := Spec.Recover(c, Spec.RecoveryRequest(c, Now(), oldRoot, newRoot), sig);
      if recovered.Failure? { return Failure(recovered.error); }
      var guardian := recovered.value;
      var listed := IsGuardian(oldRoot, guardian);
      if !listed { return Failure(NotAGuardian); }
      var approval := Spec.ApprovalNow(Now(), now, oldRoot, newRoot, guardian, sig);
      OpenRound(oldRoot, newRoot);
      RecordApproval(oldRoot, 1, approval);
      r := Success(0);
    }

    method OpenRound(root: Address, newRoot: Address)
      modifies this
      ensures Now() == old(Now()).(pendingNewRoot := old(pendingNewRoot)[root := newRoot],
                                   identityState := old(identityState)[root := RecoveryPending])
    {
      pendingNewRoot := pendingNewRoot[root := newRoot];
      identityState := identityState[root := RecoveryPending];
    }

    method RecordApproval(root: Address, count: Uint256, approval: Approval)
      modifies this
      ensures Now() == old(Now()).(recoveryApprovals := old(recoveryApprovals)[root := count],
                                   recoveryApproved := old(recoveryApproved)[root := old(Now()).Flags(root) + {approval.guardian}])
                                  .Emit(Approved(root, approval))
    {
      recoveryApprovals := recoveryApprovals[root := count];
      recoveryApproved := recoveryApproved[root := Read(recoveryApproved, root, {}) + {approval.guardian}];
      log := Snoc(log, Approved(root, approval));
    }

    method SupportRecovery(now: Timestamp, oldRoot: Address, sig: Sig) returns (r: Result<nat, Error>)
      modifies this
      ensures Meets(r, Spec.SupportRecoveryStep(c, now, old(Now()), oldRoot, sig))
    {
      hide Spec.Recover;
      var newRoot := Read(pendingNewRoot, oldRoot, 0);
      if newRoot == 0 { return Failure(NoPendingRecovery); }
      var recovered := Spec.Recover(c, Spec.RecoveryRequest(c, Now(), oldRoot, newRoot), sig);
      if recovered.Failure? { return Failure(recovered.error); }
      var guardian := recovered.value;
      var listed := IsGuardian(oldRoot, guardian);
      if !listed { return Failure(NotAGuardian); }
      if guardian in Read(recoveryApproved, oldRoot, {}) { return Failure(AlreadyApproved); }
      if Read(recoveryApprovals, oldRoot, 0) + 1 >= TWO_256 { return Failure(Panic); }
      var count := Read(recoveryApprovals, oldRoot, 0) + 1;
      var approval := Spec.ApprovalNow(Now(), now, oldRoot, newRoot, guardian, sig);
      RecordApproval(oldRoot, count, approval);
      if count >= GUARDIAN_THRESHOLD && Read(recoveryInitiatedAt, oldRoot, 0) == 0 {
        StartTimelock(oldRoot, now);
      }
      r := Success(0);
    }

    method StartTimelock(root: Address, now: Timestamp)
      modifies this
      ensures Now() == old(Now()).(recoveryInitiatedAt := old(recoveryInitiatedAt)[root := now])
    {
      recoveryInitiatedAt := recoveryInitiatedAt[root := now];
    }

    method ClearRecovery(oldRoot: Address)
      modifies this
      ensures Now() == Spec.ClearRecovery(old(Now()), oldRoot)
    {
      LowerFlags(oldRoot);
      CloseRound(oldRoot);
    }

    method LowerFlags(root: Address)
      modifies this`recoveryApproved
      ensures recoveryApproved == Spec.ClearFlags(old(recoveryApproved), root, Read(guardians, root, []))
      ensures Now() == old(Now()).(recoveryApproved := recoveryApproved)
    {
      var list := Read(guardians, root, []);
      var i := 0;
      while i < |list|
        modifies this`recoveryApproved
        invariant 0 <= i <= |list|
        invariant Spec.ClearFlags(recoveryApproved, root, list[i..])
                  == Spec.ClearFlags(old(recoveryApproved), root, list)
      {
        recoveryApproved := recoveryApproved[root := Read(recoveryApproved, root, {}) - {list[i]}];
        assert list[i..][1..] == list[i + 1..];
        i := i + 1;
      }
    }

    method CloseRound(root: Address)
      modifies this
      ensures Now() == old(Now()).(pendingNewRoot := old(pendingNewRoot)[root := 0],
                                   recoveryApprovals := old(recoveryApprovals)[root := 0],
                                   recoveryInitiatedAt := old(recoveryInitiatedAt)[root := 0])
    {
      pendingNewRoot := pendingNewRoot[root := 0];
      recoveryApprovals := recoveryApprovals[root := 0];
      recoveryInitiatedAt := recoveryInitiatedAt[root := 0];
    }

    method CancelRecovery(sender: Address, oldRoot: Address) returns (r: Result<nat, Error>)
      modifies this
      ensures Meets(r, Spec.CancelRecoveryStep(old(Now()), sender, oldRoot))
    {
      hide Spec.ClearFlags;
      if sender != oldRoot { return Failure(OnlyOldRootCanCancel); }
      if Read(pendingNewRoot, oldRoot, 0) == 0 { return Failure(NoPendingRecovery); }
      ClearRecovery(oldRoot);
      identityState := identityState[oldRoot := Active];
      log := Snoc(log, Cancelled(oldRoot));
      r := Success(0);
    }

    method FinalizeRecovery(now: Timestamp, oldRoot: Address) returns (r: Result<nat, Error>)
      modifies this
      ensures Meets(r, Spec.FinalizeRecoveryStep(now, old(Now()), oldRoot))
    {
      hide Spec.ClearFlags;
      var newRoot := Read(pendingNewRoot, oldRoot, 0);
      if newRoot == 0 { return Failure(NoPendingRecovery); }
      if Read(recoveryApprovals, oldRoot, 0) < GUARDIAN_THRESHOLD { return Failure(ThresholdNotMet); }
      var started := Read(recoveryInitiatedAt, oldRoot, 0);
      if started == 0 { return Failure(TimelockNotStarted); }
      if started + RECOVERY_WINDOW >= TWO_256 { return Failure(Panic); }
      if now < started + RECOVERY_WINDOW { return Failure(TimelockNotExpired); }
      if Read(recoveryNonces, oldRoot, 0) + 1 >= TWO_256 { return Failure(Panic); }
      ReplaceProver(oldRoot, newRoot);
      MoveGuardians(oldRoot, newRoot);
      ClearRecovery(oldRoot);
      Reactivate(oldRoot, newRoot, now);
      r := Success(0);
    }

    method ReplaceProver(oldRoot: Address, newRoot: Address)
      modifies this
      ensures Now() == old(Now()).(authorizedProvers := old(authorizedProvers) - {oldRoot} + {newRoot},
                                   nonces := old(nonces)[newRoot := 0],
                                   delegationNonces := old(delegationNonces)[newRoot := 0])
    {
      authorizedProvers := authorizedProvers - {oldRoot};
      authorizedProvers := authorizedProvers + {newRoot};
      nonces := nonces[newRoot := 0];
      delegationNonces := delegationNonces[newRoot := 0];
    }

    method MoveGuardians(oldRoot: Address, newRoot: Address)
      requires Now().RecoveryNonce(oldRoot) + 1 < TWO_256
      modifies this
      ensures Now() == old(Now()).(guardians := old(guardians)[newRoot := old(Now()).Guardians(oldRoot)][oldRoot := []],
                                   recoveryNonces := old(recoveryNonces)[oldRoot := old(Now()).RecoveryNonce(oldRoot) + 1])
    {
      guardians := guardians[newRoot := Read(guardians, oldRoot, [])];
      guardians := guardians[oldRoot := []];
      recoveryNonces := recoveryNonces[oldRoot := Read(recoveryNonces, oldRoot, 0) + 1];
    }

    method Reactivate(oldRoot: Address, newRoot: Address, now: Timestamp)
      modifies this
      ensures Now() == old(Now()).(identityState := old(identityState)[oldRoot := Active][newRoot := Active])
                                  .Emit(Finalized(oldRoot, newRoot, now))
    {
      identityState := identityState[oldRoot := Active];
      identityState := identityState[newRoot := Active];
      log := Snoc(log, Finalized(oldRoot, newRoot, now));
    }

    // -------------------------------------------------------------------------
    // Owner functions and epochs
    // -------------------------------------------------------------------------

    method AuthorizeKey(sender: Address, key: Address) returns (r: Result<nat, Error>)
      modifies this
      ensures Meets(r, Spec.OwnerStep(old(Now()), sender, Spec.AuthorizeKey(key)))
    {
      if sender != owner { return Failure(NotOwner); }
      authorizedKeys := authorizedKeys + {key};
      r := Success(0);
    }

    method RevokeKey(sender: Address, key: Address) returns (r: Result<nat, Error>)
      modifies this
      ensures Meets(r, Spec.OwnerStep(old(Now()), sender, Spec.RevokeKey(key)))
    {
      if sender != owner { return Failure(NotOwner); }
      authorizedKeys := authorizedKeys - {key};
      r := Success(0);
    }

    method RegisterProver(sender: Address, prover: Address) returns (r: Result<nat, Error>)
      modifies this
      ensures Meets(r, Spec.OwnerStep(old(Now()), sender, Spec.RegisterProver(prover)))
    {
      if sender != owner { return Failure(NotOwner); }
      authorizedProvers := authorizedProvers + {prover};
      r := Success(0);
    }

    method RevokeProver(sender: Address, prover: Address) returns (r: Result<nat, Error>)
      modifies this
      ensures Meets(r, Spec.OwnerStep(old(Now()), sender, Spec.RevokeProver(prover)))
    {
      if sender != owner { return Failure(NotOwner); }
      authorizedProvers := authorizedProvers - {prover};
      r := Success(0);
    }

    method SetGuardians(sender: Address, root: Address, list: seq<Address>) returns (r: Result<nat, Error>)
      modifies this
      ensures Meets(r, Spec.OwnerStep(old(Now()), sender, Spec.SetGuardians(root, list)))
    {
      if sender != owner { return Failure(NotOwner); }
      if |list| < 3 || |list| > 5 { return Failure(InvalidGuardianCount); }
      guardians := guardians[root := list];
      r := Success(0);
    }

    method FreezeIdentity(sender: Address, root: Address) returns (r: Result<nat, Error>)
      modifies this
      ensures Meets(r, Spec.OwnerStep(old(Now()), sender, Spec.FreezeIdentity(root)))
    {
      if sender != owner { return Failure(NotOwner); }
      identityState := identityState[root := Frozen];
      log := Snoc(log, IdentityFrozen(root));
      r := Success(0);
    }

    method UnfreezeIdentity(sender: Address, root: Address) returns (r: Result<nat, Error>)
      modifies this
      ensures Meets(r, Spec.OwnerStep(old(Now()), sender, Spec.UnfreezeIdentity(root)))
    {
      if sender != owner { return Failure(NotOwner); }
      if Read(identityState, root, Active) != Frozen { return Failure(Error.NotFrozen); }
      identityState := identityState[root := Active];
      log := Snoc(log, IdentityUnfrozen(root));
      r := Success(0);
    }

    method SetEntryPoint(sender: Address, newEntryPoint: Address) returns (r: Result<nat, Error>)
      modifies this
      ensures Meets(r, Spec.OwnerStep(old(Now()), sender, Spec.SetEntryPoint(newEntryPoint)))
    {
      if sender != owner { return Failure(NotOwner); }
      entryPoint := newEntryPoint;
      r := Success(0);
    }

    method SetClaim(sender: Address, account: Address, claim: Bytes32, granted: bool) returns (r: Result<nat, Error>)
      modifies this
      ensures Meets(r, Spec.OwnerStep(old(Now()), sender, Spec.SetClaim(account, claim, granted)))
    {
      if sender != owner { return Failure(NotOwner); }
      userClaims := if granted then userClaims + {(account, claim)} else userClaims - {(account, claim)};
      r := Success(0);
    }

    method CancelAllSessions(sender: Address, root: Address) returns (r: Result<nat, Error>)
      modifies this
      ensures Meets(r, Spec.CancelAllSessionsStep(old(Now()), sender, root))
    {
      if sender != root && sender != owner { return Failure(NotAuthorized); }
      if Read(sessionEpoch, root, 0) + 1 >= TWO_256 { return Failure(Panic); }
      sessionEpoch := sessionEpoch[root := Read(sessionEpoch, root, 0) + 1];
      log := Snoc(log, SessionsCancelled(root, sessionEpoch[root]));
      r := Success(0);
    }

    method ReceiveEther(value: Uint256) returns (r: Result<nat, Error>)
      modifies this
      ensures r == Success(0) && Now() == old(Now()).Credit(value)
    {
      balance := balance + value;
      r := Success(0);
    }

    // -------------------------------------------------------------------------
    // Dispatch
    // -------------------------------------------------------------------------

    method OwnerCall(sender: Address, op: Spec.DirectOp) returns (r: Result<nat, Error>)
      requires Spec.OwnerOnly(op)
      modifies this
      ensures Meets(r, Spec.OwnerStep(old(Now()), sender, op))
    {
      hide Meets, Spec.OwnerStep;
      match op {
        case AuthorizeKey(key) => r := AuthorizeKey(sender, key);
        case RevokeKey(key) => r := RevokeKey(sender, key);
        case RegisterProver(prover) => r := RegisterProver(sender, prover);
        case RevokeProver(prover) => r := RevokeProver(sender, prover);
        case SetGuardians(root, list) => r := SetGuardians(sender, root, list);
        case FreezeIdentity(root) => r := FreezeIdentity(sender, root);
        case UnfreezeIdentity(root) => r := UnfreezeIdentity(sender, root);
        case SetEntryPoint(a) => r := SetEntryPoint(sender, a);
        case SetClaim(account, claim, granted) => r := SetClaim(sender, account, claim, granted);
      }
    }

    method DirectCall(now: Timestamp, sender: Address, value: Uint256, op: Spec.DirectOp) returns (r: Result<nat, Error>)
      modifies this
      ensures Meets(r, Spec.Direct(c, now, old(Now()), sender, value, op))
    {
      hide Spec.ValidateIntentStep, Spec.ValidateDelegatedStep, Spec.OwnerStep, Spec.GatedPurchaseStep;
      hide Spec.CancelAllSessionsStep, Spec.InitiateRecoveryStep, Spec.SupportRecoveryStep;
      hide Spec.CancelRecoveryStep, Spec.FinalizeRecoveryStep;
      if value != 0 && !Spec.Payable(op) {
        return Failure(NotPayable);
      }
      if Spec.OwnerOnly(op) {
        r := OwnerCall(sender, op);
        return;
      }
      match op {
        case ValidateIntent(p) => r := ValidateIntent(now, value, p);
        case ValidateDelegatedIntent(d, p) => r := ValidateDelegatedIntent(now, value, d, p);
        case GatedPurchase => r := GatedPurchase();
        case CancelAllSessions(root) => r := CancelAllSessions(sender, root);
        case InitiateRecovery(oldRoot, newRoot, sig) => r := InitiateRecovery(now, oldRoot, newRoot, sig);
        case SupportRecovery(oldRoot, sig) => r := SupportRecovery(now, oldRoot, sig);
        case CancelRecovery(oldRoot) => r := CancelRecovery(sender, oldRoot);
        case FinalizeRecovery(oldRoot) => r := FinalizeRecovery(now, oldRoot);
        case Receive => r := ReceiveEther(value);
      }
    }

    // -------------------------------------------------------------------------
    // Session chains
    // -------------------------------------------------------------------------

    method Burn(session: Address)
      modifies this`usedSessionKeys
      ensures Now() == old(Now()).(usedSessionKeys := old(usedSessionKeys) + {session})
    {
      usedSessionKeys := usedSessionKeys + {session};
    }

    // The value is received and the frame is open; a burned key is already marked.
    method Enter(frame: Frame)
      requires frame.BurnsKey() ==> frame.session in usedSessionKeys
      modifies this`balance, this`frames, this`log
      ensures Now() == old(Now()).Open(frame)
    {
      balance := balance + frame.value;
      frames := Push(frame, frames);
      log := Snoc(log, Opened(frame));
      assert frame.BurnsKey() ==> usedSessionKeys == usedSessionKeys + {frame.session};
    }

    method Leave()
      requires frames.Push?
      modifies this`frames, this`log
      ensures Now() == old(Now()).Close()
    {
      log := Snoc(log, CompletionOf(frames.top));
      frames := frames.Pop();
    }

    // The checks of execute, in its order; the key is burned half way through them.
    method AdmitExecute(now: Timestamp, value: Uint256, session: Signed<Session>, intent: Signed<Intent>,
                        target: Address, callData: Bytes) returns (r: Result<Frame, Error>)
      modifies this
      ensures r == EnterExecute(c, now, old(Now()), value, session, intent, target, callData)
      ensures r.Success? ==> Now() == old(Now()).Open(r.value)
    {
      hide Spec.Recover;
      if Read(identityState, session.body.parent, Active) != Active { return Failure(IdentityNotActive); }
      if now > session.body.expiration { return Failure(SessionExpired); }
      if session.body.chainId != c.ShortId() { return Failure(SessionChainMismatch); }
      var sessionSigner := Spec.Recover(c, SessionMessage(session.body), session.sig);
      if sessionSigner.Failure? { return Failure(sessionSigner.error); }
      if sessionSigner.value !in authorizedKeys { return Failure(SessionParentNotAuthorized); }
      if sessionSigner.value != session.body.parent { return Failure(SignerNotDeclaredParent); }
      if session.body.session in usedSessionKeys { return Failure(SessionKeyAlreadyUsed); }
      Burn(session.body.session);
      if now > intent.body.expiration { return Failure(IntentExpired); }
      if value > intent.body.maxValue { return Failure(ValueExceedsCap); }
      var intentSigner := Spec.Recover(c, IntentMessage(intent.body), intent.sig);
      if intentSigner.Failure? { return Failure(intentSigner.error); }
      if intentSigner.value != session.body.session { return Failure(IntentNotSignedBySessionKey); }
      if intent.body.functionSig != session.body.scope { return Failure(IntentScopeMismatch); }
      if intent.body.targetContract != session.body.target { return Failure(IntentTargetMismatch); }
      if target != intent.body.targetContract { return Failure(CallTargetMismatch); }
      if |callData| < 4 { return Failure(CalldataTooShort); }
      if callData[..4] != intent.body.functionSig { return Failure(SelectorMismatch); }
      if c.keccak(callData) != intent.body.callDataHash { return Failure(CalldataHashMismatch); }
      if intent.body.maxValue > session.body.maxValue { return Failure(IntentExceedsSessionCap); }
      if intent.body.sessionEpoch != Read(sessionEpoch, session.body.parent, 0) { return Failure(SessionEpochMismatch); }
      var frame := Frame(Execution, session.body.session, session.body.parent, intent.body.functionSig, target,
                         session.body.maxValue, value, [Call(target, value, callData)]);
      Enter(frame);
      r := Success(frame);
    }

    method AdmitMulticall(now: Timestamp, value: Uint256, session: Signed<Session>, intent: Signed<Intent>,
                          calls: seq<Call>) returns (r: Result<Frame, Error>)
      modifies this
      ensures r == EnterMulticall(c, now, old(Now()), value, session, intent, calls)
      ensures r.Success? ==> Now() == old(Now()).Open(r.value)
    {
      hide Spec.Recover;
      if Read(identityState, session.body.parent, Active) != Active { return Failure(IdentityNotActive); }
      if now > session.body.expiration { return Failure(SessionExpired); }
      if session.body.chainId != c.ShortId() { return Failure(SessionChainMismatch); }
      var sessionSigner := Spec.Recover(c, SessionMessage(session.body), session.sig);
      if sessionSigner.Failure? { return Failure(sessionSigner.error); }
      if sessionSigner.value !in authorizedKeys { return Failure(SessionParentNotAuthorized); }
      if sessionSigner.value != session.body.parent { return Failure(SignerNotDeclaredParent); }
      if session.body.session in usedSessionKeys { return Failure(SessionKeyAlreadyUsed); }
      Burn(session.body.session);
      if now > intent.body.expiration { return Failure(IntentExpired); }
      if value > intent.body.maxValue { return Failure(ValueExceedsCap); }
      var intentSigner := Spec.Recover(c, IntentMessage(intent.body), intent.sig);
      if intentSigner.Failure? { return Failure(intentSigner.error); }
      if intentSigner.value != session.body.session { return Failure(IntentNotSignedBySessionKey); }
      if intent.body.functionSig != session.body.scope { return Failure(IntentScopeMismatch); }
      if intent.body.maxValue > session.body.maxValue { return Failure(IntentExceedsSessionCap); }
      if intent.body.sessionEpoch != Read(sessionEpoch, session.body.parent, 0) { return Failure(SessionEpochMismatch); }
      if c.keccak(c.encodeCalls(calls)) != intent.body.callDataHash { return Failure(CalldataHashMismatch); }
      if !CheckClaim(session.body.parent, intent.body.requiredClaim) { return Failure(ClaimNotSatisfied); }
      var frame := Frame(Multicall, session.body.session, session.body.parent, intent.body.functionSig,
                         intent.body.targetContract, session.body.maxValue, value, calls);
      Enter(frame);
      r := Success(frame);
    }

    predicate CheckClaim(account: Address, claim: Bytes32)
      reads this
    {
      claim == Zeros(32) || (account, claim) in userClaims
    }

    // The checks of validateUserOp, which stop with false or revert; the key may be burned by then.
    method AdmitUserOp(now: Timestamp, sender: Address, op: PackedUserOp, missing: Uint256) returns (v: UserOpVerdict)
      modifies this`usedSessionKeys
      ensures v == CheckUserOp(c, now, old(Now()), sender, op, missing)
      ensures v.Soft? ==> Now() == (if v.burned.Some? then old(Now()).(usedSessionKeys := old(usedSessionKeys) + {v.burned.value})
                                    else old(Now()))
      ensures v.Pass? ==> Now() == (if v.frame.BurnsKey() then old(Now()).(usedSessionKeys := old(usedSessionKeys) + {v.frame.session})
                                    else old(Now()))
    {
      if sender != entryPoint { return Hard(OnlyEntryPoint); }
      if op.chain.None? { return Hard(MalformedInput); }
      var session, intent := op.chain.value.0, op.chain.value.1;
      if Read(identityState, session.body.parent, Active) == RecoveryPending {
        if |op.callData| < 4 || !IsRecoverySelector(c, op.callData[..4]) { return Hard(RecoveryBlocksUserOp); }
        return Pass(Frame(RecoveryOp, session.body.session, session.body.parent, op.callData[..4], entryPoint,
                          0, 0, PreFund(Now(), missing)));
      }
      if Read(identityState, session.body.parent, Active) != Active { return Soft(None); }
      v := AdmitChain(now, session, intent, missing);
    }

    method AdmitChain(now: Timestamp, session: Signed<Session>, intent: Signed<Intent>, missing: Uint256)
      returns (v: UserOpVerdict)
      modifies this`usedSessionKeys
      ensures v == CheckChain(c, now, old(Now()), session, intent, missing)
      ensures v.Soft? ==> Now() == (if v.burned.Some? then old(Now()).(usedSessionKeys := old(usedSessionKeys) + {v.burned.value})
                                    else old(Now()))
      ensures v.Pass? ==> v.frame.BurnsKey() && Now() == old(Now()).(usedSessionKeys := old(usedSessionKeys) + {v.frame.session})
    {
      hide Spec.Recover;
      if now > session.body.expiration { return Soft(None); }
      if session.body.chainId != c.ShortId() { return Soft(None); }
      var sessionSigner := Spec.Recover(c, SessionMessage(session.body), session.sig);
      if sessionSigner.Failure? { return Hard(sessionSigner.error); }
      if sessionSigner.value !in authorizedKeys { return Soft(None); }
      if sessionSigner.value != session.body.parent { return Soft(None); }
      if session.body.session in usedSessionKeys { return Soft(None); }
      Burn(session.body.session);
      v := Soft(Some(session.body.session));
      if now > intent.body.expiration { return; }
      var intentSigner := Spec.Recover(c, IntentMessage(intent.body), intent.sig);
      if intentSigner.Failure? { return Hard(intentSigner.error); }
      if intentSigner.value != session.body.session { return; }
      if intent.body.functionSig != session.body.scope { return; }
      if intent.body.targetContract != session.body.target { return; }
      if intent.body.maxValue > session.body.maxValue { return; }
      if intent.body.sessionEpoch != Read(sessionEpoch, session.body.parent, 0) { return; }
      if !CheckClaim(session.body.parent, intent.body.requiredClaim) { return Hard(ClaimNotSatisfied); }
      v := Pass(Frame(UserOp, session.body.session, session.body.parent, intent.body.functionSig, entryPoint,
                      session.body.maxValue, 0, PreFund(Now(), missing)));
    }

    // -------------------------------------------------------------------------
    // External calls
    // -------------------------------------------------------------------------

    /** target.call{value: v}(data). When it fails, whatever the callee did here is undone. */
    method CallContract(now: Timestamp, call: Call, callee: Callee) returns (ok: bool)
      modifies this
      ensures var o := CallOut(c, now, old(Now()), call, callee);
              (ok <==> o.Some?) && Now() == (if o.Some? then o.value else old(Now()))
      decreases callee, 1
    {
      if call.value > balance || frames.Idle? {
        return false;
      }
      var saved := Now();
      SendOut(call);
      ok := RunCallee(now, callee);
      if !ok {
        Restore(saved);
      }
    }

    method SendOut(call: Call)
      requires call.value <= balance && frames.Push?
      modifies this`balance, this`frames, this`log
      ensures Now() == old(Now()).SendOut(call)
    {
      log := Snoc(log, CalledOut(frames.Depth(), frames.top.kind, frames.top.session, call));
      balance := balance - call.value;
      frames := frames.DropCall();
    }

    method RunCallee(now: Timestamp, callee: Callee) returns (ok: bool)
      modifies this
      ensures var o := Answer(c, now, old(Now()), callee);
              (ok <==> o.Some?) && (ok ==> Now() == o.value)
      decreases callee, 0
    {
      match callee {
        case Returns => ok := true;
        case Reverts => ok := false;
        case Then(reentry, rest) =>
          var _ := Transact(now, reentry);
          ok := RunCallee(now, rest);
      }
    }

    method Execute(now: Timestamp, value: Uint256, session: Signed<Session>, intent: Signed<Intent>, target: Address,
                   callData: Bytes, callee: Callee) returns (r: Result<nat, Error>)
      modifies this
      ensures forall sender: Address ::
                Meets(r, Exec(c, now, old(Now()), Tx(sender, value, Op.Execute(session, intent, target, callData, callee))))
      decreases callee, 2
    {
      hide EnterExecute;
      var admitted := AdmitExecute(now, value, session, intent, target, callData);
      if admitted.Failure? {
        return Failure(admitted.error);
      }
      var ok := CallContract(now, Call(target, value, callData), callee);
      if !ok {
        return Failure(CallReverted);
      }
      if frames.Push? {
        Leave();
      }
      r := Success(0);
    }

    method ExecuteMulticall(now: Timestamp, value: Uint256, session: Signed<Session>, intent: Signed<Intent>,
                            batch: seq<Invocation>) returns (r: Result<nat, Error>)
      modifies this
      ensures forall sender: Address ::
                Meets(r, Exec(c, now, old(Now()), Tx(sender, value, Op.ExecuteMulticall(session, intent, batch))))
      decreases batch, 4
    {
      hide EnterMulticall;
      var admitted := AdmitMulticall(now, value, session, intent, CallsOf(batch));
      if admitted.Failure? {
        return Failure(admitted.error);
      }
      r := MakeCalls(now, intent.body.targetContract, batch);
    }

    // The loop of executeMulticall.
    method MakeCalls(now: Timestamp, target: Address, batch: seq<Invocation>) returns (r: Result<nat, Error>)
      modifies this
      ensures Meets(r, ExecBatch(c, now, old(Now()), target, batch, 0))
      decreases batch, 3
    {
      var i := 0;
      while i < |batch|
        invariant 0 <= i <= |batch|
        invariant ExecBatch(c, now, Now(), target, batch[i..], i) == ExecBatch(c, now, old(Now()), target, batch, 0)
      {
        assert batch[i..][0] == batch[i] && batch[i..][1..] == batch[i + 1..];
        if batch[i].call.target != target {
          return Failure(CallTargetMismatch);
        }
        var ok := MakeCall(now, batch[i]);
        if !ok {
          return Failure(MulticallFailed(i));
        }
        i := i + 1;
      }
      if frames.Push? {
        Leave();
      }
      r := Success(0);
    }

    method MakeCall(now: Timestamp, i: Invocation) returns (ok: bool)
      modifies this
      ensures var o := Invoke(c, now, old(Now()), i);
              (ok <==> o.Some?) && Now() == (if o.Some? then o.value else old(Now()))
      decreases i, 2
    {
      ok := CallContract(now, i.call, i.callee);
    }

    method ValidateUserOp(now: Timestamp, sender: Address, op: PackedUserOp, missing: Uint256, code: Callee)
      returns (r: Result<nat, Error>)
      modifies this
      ensures Meets(r, Exec(c, now, old(Now()), Tx(sender, 0, Op.ValidateUserOp(op, missing, code))))
      decreases code, 5
    {
      hide CheckUserOp;
      var before := Now();
      var verdict := AdmitUserOp(now, sender, op, missing);
      r := FinishUserOp(now, before, verdict, op, missing, code);
    }

    // After the checks: pre-fund the entry point and report. Only a burned key outlives a failed report.
    method FinishUserOp(now: Timestamp, before: State, verdict: UserOpVerdict, op: PackedUserOp, missing: Uint256,
                        code: Callee) returns (r: Result<nat, Error>)
      requires verdict.Soft? ==> Now() == (if verdict.burned.Some?
                 then before.(usedSessionKeys := before.usedSessionKeys + {verdict.burned.value}) else before)
      requires verdict.Pass? ==> Now() == (if verdict.frame.BurnsKey()
                 then before.(usedSessionKeys := before.usedSessionKeys + {verdict.frame.session}) else before)
      modifies this
      ensures Meets(r, ExecUserOp(c, now, before, verdict, op, missing, code))
      decreases code, 4
    {
      hide CallOut;
      match verdict {
        case Hard(e) => return Failure(e);
        case Soft(burned) =>
          if burned.Some? {
            RecordSoftBurn(burned.value);
          }
          return Success(SigFailed());
        case Pass(frame) => r := PreFundEntryPoint(now, before, frame, op, missing, code);
      }
    }

    method RecordSoftBurn(session: Address)
      modifies this`log
      ensures Now() == old(Now()).(log := Snoc(old(log), SoftBurned(session)))
    {
      log := Snoc(log, SoftBurned(session));
    }

    method PreFundEntryPoint(now: Timestamp, before: State, frame: Frame, op: PackedUserOp, missing: Uint256,
                             code: Callee) returns (r: Result<nat, Error>)
      requires Now() == (if frame.BurnsKey()
                 then before.(usedSessionKeys := before.usedSessionKeys + {frame.session}) else before)
      modifies this
      ensures Meets(r, ExecUserOp(c, now, before, Pass(frame), op, missing, code))
      decreases code, 3
    {
      hide CallOut, SigValid, SigFailed;
      Enter(frame);
      assert Now() == before.Open(frame);
      if missing > 0 {
        var ok := CallContract(now, Call(before.entryPoint, missing, []), code);
        if !ok {
          Restore(if frame.BurnsKey() then before.BurnSoftly(frame.session) else before);
          return Success(SigFailed());
        }
      }
      if frames.Push? {
        Leave();
      }
      r := Success(if op.chain.Some? then SigValid(op.chain.value.0.body) else 0);
    }

    // -------------------------------------------------------------------------
    // Transactions
    // -------------------------------------------------------------------------

    method Perform(now: Timestamp, tx: Tx) returns (r: Result<nat, Error>)
      modifies this
      ensures Meets(r, Exec(c, now, old(Now()), tx))
      decreases tx, 0
    {
      match tx.op {
        case Plain(op) => r := DirectCall(now, tx.sender, tx.value, op);
        case Execute(session, intent, target, callData, callee) =>
          r := Execute(now, tx.value, session, intent, target, callData, callee);
        case ExecuteMulticall(session, intent, batch) => r := ExecuteMulticall(now, tx.value, session, intent, batch);
        case ValidateUserOp(op, missing, code) =>
          if tx.value != 0 {
            return Failure(NotPayable);
          }
          r := ValidateUserOp(now, tx.sender, op, missing, code);
      }
    }

    /** One call of the contract as the chain sees it: it commits the state its specification gives, or it
        fails with that error and leaves every field as it was. */
    method Transact(now: Timestamp, tx: Tx) returns (r: Result<nat, Error>)
      modifies this
      ensures var o := Exec(c, now, old(Now()), tx);
              && r == (match o case Ok(_, data) => Success(data) case Reverted(e) => Failure(e))
              && Now() == Settle(old(Now()), o)
      decreases tx, 1
    {
      hide Exec;
      var saved := Now();
      r := Perform(now, tx);
      if r.Failure? {
        Restore(saved);
      }
    }
  }
}
