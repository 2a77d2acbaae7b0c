/** Which calls fail, and with which error: for every public function its checks, in the order in which they
    are made. A call commits exactly when it passes them all, and otherwise reverts with the first it fails. */
module Refusals {
  import opened Base
  import opened Words
  import opened TypedData
  import opened Storage
  import opened IdentityStore
  import opened Execution
  import opened Calls
  import opened Authority

  // One check: its error if it fails, and otherwise whatever the checks after it say.
  function Check(ok: bool, error: Error, rest: Option<Error>): Option<Error> {
    if ok then rest else Some(error)
  }

  // An outcome is the refusal, or a commit when there is none.
  predicate Refuses(o: Outcome, refusal: Option<Error>) {
    match refusal
    case None => o.Ok?
    case Some(e) => o == Reverted(e)
  }

  // ---------------------------------------------------------------------------
  // Signatures
  // ---------------------------------------------------------------------------

  const SECP256K1_N: nat := 0xFFFFFFFFFFFFFFFFFFFFFFFFFFFFFFFEBAAEDCE6AF48A03BBFD25E8CD0364141

  function SignerOf(c: Chain, m: Message, sig: Sig): Address {
    c.ecrecover(c.digestOf(m), sig.v, sig.r, sig.s)
  }

  // s in the lower half of the group order, v 27 or 28, and a signer other than address zero.
  function CheckSig(c: Chain, m: Message, sig: Sig, rest: Option<Error>): Option<Error> {
    Check(2 * Value(sig.s) < SECP256K1_N, MalleableSignature,
    Check(sig.v == 27 || sig.v == 28, InvalidVValue,
    Check(SignerOf(c, m, sig) != 0, EcrecoverFailed, rest)))
  }

  // A signature is accepted, for the signer the precompile gives, exactly when it passes its three checks.
  lemma RecoverRefuses(c: Chain, m: Message, sig: Sig)
    ensures match CheckSig(c, m, sig, None)
            case None => Recover(c, m, sig) == Success(SignerOf(c, m, sig))
            case Some(e) => Recover(c, m, sig) == Failure(e)
  {
  }

  // ---------------------------------------------------------------------------
  // Intents
  // ---------------------------------------------------------------------------

  function ValidateIntentRefusal(c: Chain, now: Timestamp, s: State, value: Uint256, p: Signed<Intent>): Option<Error> {
    var signer := SignerOf(c, IntentMessage(p.body), p.sig);
    Check(now <= p.body.expiration, IntentExpired,
    Check(value <= p.body.maxValue, ValueExceedsCap,
    CheckSig(c, IntentMessage(p.body), p.sig,
    Check(signer in s.authorizedKeys, UnauthorizedKey,
    Check(p.body.nonce == s.Nonce(signer), InvalidNonce,
    Check(p.body.sessionEpoch == s.Epoch(signer), SessionEpochMismatch, None))))))
  }

  lemma ValidateIntentRefuses(c: Chain, now: Timestamp, s: State, value: Uint256, p: Signed<Intent>)
    ensures Refuses(ValidateIntentStep(c, now, s, value, p), ValidateIntentRefusal(c, now, s, value, p))
  {
    RecoverRefuses(c, IntentMessage(p.body), p.sig);
    hide Recover;
  }

  function ValidateDelegatedRefusal(c: Chain, now: Timestamp, s: State, value: Uint256, d: Signed<Delegation>,
                                    p: Signed<Intent>): Option<Error>
  {
    var prover := SignerOf(c, DelegationMessage(d.body), d.sig);
    Check(now <= d.body.expiration, DelegationExpired,
    CheckSig(c, DelegationMessage(d.body), d.sig,
    Check(prover in s.authorizedProvers, UnregisteredProver,
    Check(d.body.nonce == s.DelegationNonce(prover), InvalidDelegationNonce,
    Check(now <= p.body.expiration, IntentExpired,
    Check(value <= p.body.maxValue, ValueExceedsCap,
    CheckSig(c, IntentMessage(p.body), p.sig,
    Check(SignerOf(c, IntentMessage(p.body), p.sig) == d.body.delegate, SignerNotDelegate,
    Check(p.body.functionSig == d.body.scope, ScopeMismatch,
    Check(p.body.maxValue <= d.body.maxValue, ExceedsDelegationCap,
    Check(p.body.nonce == s.Nonce(d.body.delegate), InvalidNonce, None)))))))))))
  }

  lemma ValidateDelegatedRefuses(c: Chain, now: Timestamp, s: State, value: Uint256, d: Signed<Delegation>, p: Signed<Intent>)
    ensures Refuses(ValidateDelegatedStep(c, now, s, value, d, p), ValidateDelegatedRefusal(c, now, s, value, d, p))
  {
    RecoverRefuses(c, DelegationMessage(d.body), d.sig);
    RecoverRefuses(c, IntentMessage(p.body), p.sig);
    hide Recover;
  }

  // ---------------------------------------------------------------------------
  // Recovery
  // ---------------------------------------------------------------------------

  // A guardian signs both roots, the chain id and the recovery nonce, each narrowed to 64 bits.
  function RequestFor(c: Chain, s: State, oldRoot: Address, newRoot: Address): Message {
    RecoveryMessage(Recovery(oldRoot, newRoot, c.chainId % TWO_64, s.RecoveryNonce(oldRoot) % TWO_64))
  }

  function InitiateRefusal(c: Chain, s: State, oldRoot: Address, newRoot: Address, sig: Sig): Option<Error> {
    var m := RequestFor(c, s, oldRoot, newRoot);
    Check(oldRoot in s.authorizedProvers, OldRootNotRegistered,
    Check(newRoot != 0, InvalidNewRoot,
    Check(s.Pending(oldRoot) == 0, RecoveryAlreadyPending,
    CheckSig(c, m, sig,
    Check(SignerOf(c, m, sig) in s.Guardians(oldRoot), NotAGuardian, None)))))
  }

  lemma InitiateRefuses(c: Chain, now: Timestamp, s: State, oldRoot: Address, newRoot: Address, sig: Sig)
    ensures Refuses(InitiateRecoveryStep(c, now, s, oldRoot, newRoot, sig), InitiateRefusal(c, s, oldRoot, newRoot, sig))
  {
    RecoverRefuses(c, RequestFor(c, s, oldRoot, newRoot), sig);
    hide Recover;
  }

  function SupportRefusal(c: Chain, s: State, oldRoot: Address, sig: Sig): Option<Error> {
    var m := RequestFor(c, s, oldRoot, s.Pending(oldRoot));
    Check(s.Pending(oldRoot) != 0, NoPendingRecovery,
    CheckSig(c, m, sig,
    Check(SignerOf(c, m, sig) in s.Guardians(oldRoot), NotAGuardian,
    Check(SignerOf(c, m, sig) !in s.Flags(oldRoot), AlreadyApproved,
    Check(s.Approvals(oldRoot) + 1 < TWO_256, Panic, None)))))
  }

  lemma SupportRefuses(c: Chain, now: Timestamp, s: State, oldRoot: Address, sig: Sig)
    ensures Refuses(SupportRecoveryStep(c, now, s, oldRoot, sig), SupportRefusal(c, s, oldRoot, sig))
  {
    RecoverRefuses(c, RequestFor(c, s, oldRoot, s.Pending(oldRoot)), sig);
    hide Recover;
  }

  function CancelRefusal(s: State, sender: Address, oldRoot: Address): Option<Error> {
    Check(sender == oldRoot, OnlyOldRootCanCancel,
    Check(s.Pending(oldRoot) != 0, NoPendingRecovery, None))
  }

  lemma CancelRefuses(s: State, sender: Address, oldRoot: Address)
    ensures Refuses(CancelRecoveryStep(s, sender, oldRoot), CancelRefusal(s, sender, oldRoot))
  {
  }

  function FinalizeRefusal(now: Timestamp, s: State, oldRoot: Address): Option<Error> {
    Check(s.Pending(oldRoot) != 0, NoPendingRecovery,
    Check(s.Approvals(oldRoot) >= 2, ThresholdNotMet,
    Check(s.InitiatedAt(oldRoot) != 0, TimelockNotStarted,
    Check(s.InitiatedAt(oldRoot) + 48 * 3600 < TWO_256, Panic,
    Check(now >= s.InitiatedAt(oldRoot) + 48 * 3600, TimelockNotExpired,
    Check(s.RecoveryNonce(oldRoot) + 1 < TWO_256, Panic, None))))))
  }

  lemma FinalizeRefuses(now: Timestamp, s: State, oldRoot: Address)
    ensures Refuses(FinalizeRecoveryStep(now, s, oldRoot), FinalizeRefusal(now, s, oldRoot))
  {
    hide ClearFlags;
  }

  // ---------------------------------------------------------------------------
  // All calls that call nothing else
  // ---------------------------------------------------------------------------

  function DirectRefusal(c: Chain, now: Timestamp, s: State, sender: Address, value: Uint256, op: DirectOp): Option<Error> {
    match op
    case ValidateIntent(p) => ValidateIntentRefusal(c, now, s, value, p)
    case ValidateDelegatedIntent(d, p) => ValidateDelegatedRefusal(c, now, s, value, d, p)
    case Receive => None
    case _ =>
      Check(value == 0, NotPayable,
      match op
      case InitiateRecovery(oldRoot, newRoot, sig) => InitiateRefusal(c, s, oldRoot, newRoot, sig)
      case SupportRecovery(oldRoot, sig) => SupportRefusal(c, s, oldRoot, sig)
      case CancelRecovery(oldRoot) => CancelRefusal(s, sender, oldRoot)
      case FinalizeRecovery(oldRoot) => FinalizeRefusal(now, s, oldRoot)
      case GatedPurchase => Check(s.gateOpen, DelegationRequired, None)
      case CancelAllSessions(root) =>
        Check(sender == root || sender == s.owner, NotAuthorized, Check(s.Epoch(root) + 1 < TWO_256, Panic, None))
      case SetGuardians(root, list) =>
        Check(sender == s.owner, NotOwner, Check(3 <= |list| <= 5, InvalidGuardianCount, None))
      case UnfreezeIdentity(root) => Check(sender == s.owner, NotOwner, Check(s.Status(root) == Frozen, Error.NotFrozen, None))
      case _ => Check(sender == s.owner, NotOwner, None))
  }

  /** Every call of a function that calls nothing else commits exactly when it passes its checks, and reverts with
      the first it fails. */
  lemma DirectRefuses(c: Chain, now: Timestamp, s: State, sender: Address, value: Uint256, op: DirectOp)
    ensures Refuses(Direct(c, now, s, sender, value, op), DirectRefusal(c, now, s, sender, value, op))
  {
    hide ValidateIntentStep, ValidateDelegatedStep, ValidateIntentRefusal, ValidateDelegatedRefusal;
    hide InitiateRecoveryStep, SupportRecoveryStep, CancelRecoveryStep, FinalizeRecoveryStep;
    hide InitiateRefusal, SupportRefusal, CancelRefusal, FinalizeRefusal;
    match op {
      case ValidateIntent(p) => ValidateIntentRefuses(c, now, s, value, p);
      case ValidateDelegatedIntent(d, p) => ValidateDelegatedRefuses(c, now, s, value, d, p);
      case InitiateRecovery(oldRoot, newRoot, sig) => InitiateRefuses(c, now, s, oldRoot, newRoot, sig);
      case SupportRecovery(oldRoot, sig) => SupportRefuses(c, now, s, oldRoot, sig);
      case CancelRecovery(oldRoot) => CancelRefuses(s, sender, oldRoot);
      case FinalizeRecovery(oldRoot) => FinalizeRefuses(now, s, oldRoot);
      case _ =>
    }
  }

  // ---------------------------------------------------------------------------
  // execute, executeMulticall and validateUserOp
  // ---------------------------------------------------------------------------

  function CertificateRefusal(c: Chain, now: Timestamp, s: State, session: Signed<Session>, rest: Option<Error>): Option<Error> {
    var (p, signer) := (session.body, SignerOf(c, SessionMessage(session.body), session.sig));
    Check(s.Status(p.parent) == Active, IdentityNotActive,
    Check(now <= p.expiration, SessionExpired,
    Check(p.chainId == c.chainId % TWO_64, SessionChainMismatch,
    CheckSig(c, SessionMessage(p), session.sig,
    Check(signer in s.authorizedKeys, SessionParentNotAuthorized,
    Check(signer == p.parent, SignerNotDeclaredParent,
    Check(p.session !in s.usedSessionKeys, SessionKeyAlreadyUsed, rest)))))))
  }

  function ExecuteRefusal(c: Chain, now: Timestamp, s: State, value: Uint256, session: Signed<Session>, intent: Signed<Intent>,
                          target: Address, callData: Bytes, rest: Option<Error>): Option<Error>
  {
    var p := intent.body;
    CertificateRefusal(c, now, s, session,
    Check(now <= p.expiration, IntentExpired,
    Check(value <= p.maxValue, ValueExceedsCap,
    CheckSig(c, IntentMessage(p), intent.sig,
    Check(SignerOf(c, IntentMessage(p), intent.sig) == session.body.session, IntentNotSignedBySessionKey,
    Check(p.functionSig == session.body.scope, IntentScopeMismatch,
    Check(p.targetContract == session.body.target, IntentTargetMismatch,
    Check(target == p.targetContract, CallTargetMismatch,
    Check(|callData| >= 4, CalldataTooShort,
    Check(|callData| < 4 || callData[..4] == p.functionSig, SelectorMismatch,
    Check(c.keccak(callData) == p.callDataHash, CalldataHashMismatch,
    Check(p.maxValue <= session.body.maxValue, IntentExceedsSessionCap,
    Check(p.sessionEpoch == s.Epoch(session.body.parent), SessionEpochMismatch, rest)))))))))))))
  }

  lemma EnterExecuteRefuses(c: Chain, now: Timestamp, s: State, value: Uint256, session: Signed<Session>,
                            intent: Signed<Intent>, target: Address, callData: Bytes)
    ensures match ExecuteRefusal(c, now, s, value, session, intent, target, callData, None)
            case None => EnterExecute(c, now, s, value, session, intent, target, callData).Success?
            case Some(e) => EnterExecute(c, now, s, value, session, intent, target, callData) == Failure(e)
  {
    RecoverRefuses(c, SessionMessage(session.body), session.sig);
    RecoverRefuses(c, IntentMessage(intent.body), intent.sig);
    hide Recover;
  }

  lemma ExecuteRefusalRest(c: Chain, now: Timestamp, s: State, value: Uint256, session: Signed<Session>,
                           intent: Signed<Intent>, target: Address, callData: Bytes, rest: Option<Error>)
    ensures var first := ExecuteRefusal(c, now, s, value, session, intent, target, callData, None);
            ExecuteRefusal(c, now, s, value, session, intent, target, callData, rest) == if first.None? then rest else first
  {
    hide Value, SignerOf;
  }

  // execute: its checks, and last the forwarded call.
  lemma ExecuteRefuses(c: Chain, now: Timestamp, s: State, tx: Tx)
    requires tx.op.Execute?
    ensures Refuses(Exec(c, now, s, tx),
      ExecuteRefusal(c, now, s, tx.value, tx.op.session, tx.op.intent, tx.op.target, tx.op.callData,
      Check(EndsInReturn(tx.op.callee), CallReverted, None)))
  {
    hide ExecuteRefusal, CallOut, EndsInReturn, EnterExecute;
    var (session, intent, target, callData) := (tx.op.session, tx.op.intent, tx.op.target, tx.op.callData);
    EnterExecuteRefuses(c, now, s, tx.value, session, intent, target, callData);
    ExecuteRefusalRest(c, now, s, tx.value, session, intent, target, callData,
                       Check(EndsInReturn(tx.op.callee), CallReverted, None));
    ExecuteOpensFrame(c, now, s, tx.value, session, intent, target, callData);
    CallGoesThrough(c, now, s.Open(ExecuteFrameOf(session.body, intent.body, tx.value, target, callData)),
                    Call(target, tx.value, callData), tx.op.callee);
  }

  function MulticallRefusal(c: Chain, now: Timestamp, s: State, value: Uint256, session: Signed<Session>,
                            intent: Signed<Intent>, calls: seq<Call>): Option<Error>
  {
    var p := intent.body;
    CertificateRefusal(c, now, s, session,
    Check(now <= p.expiration, IntentExpired,
    Check(value <= p.maxValue, ValueExceedsCap,
    CheckSig(c, IntentMessage(p), intent.sig,
    Check(SignerOf(c, IntentMessage(p), intent.sig) == session.body.session, IntentNotSignedBySessionKey,
    Check(p.functionSig == session.body.scope, IntentScopeMismatch,
    Check(p.maxValue <= session.body.maxValue, IntentExceedsSessionCap,
    Check(p.sessionEpoch == s.Epoch(session.body.parent), SessionEpochMismatch,
    Check(c.keccak(c.encodeCalls(calls)) == p.callDataHash, CalldataHashMismatch,
    Check(p.requiredClaim == Zeros(32) || (session.body.parent, p.requiredClaim) in s.userClaims, ClaimNotSatisfied,
          None))))))))))
  }

  lemma EnterMulticallRefuses(c: Chain, now: Timestamp, s: State, value: Uint256, session: Signed<Session>,
                              intent: Signed<Intent>, calls: seq<Call>)
    ensures match MulticallRefusal(c, now, s, value, session, intent, calls)
            case None => EnterMulticall(c, now, s, value, session, intent, calls).Success?
            case Some(e) => EnterMulticall(c, now, s, value, session, intent, calls) == Failure(e)
  {
    RecoverRefuses(c, SessionMessage(session.body), session.sig);
    RecoverRefuses(c, IntentMessage(intent.body), intent.sig);
    hide Recover;
  }

  /** executeMulticall reverts with the first check it fails. When it passes them all and still reverts, there is a
      first call that is aimed at another target, or is not covered by the balance, or whose code does not return; the
      error names it. */
  lemma MulticallRefuses(c: Chain, now: Timestamp, s: State, tx: Tx) returns (k: nat)
    requires tx.op.ExecuteMulticall? && Exec(c, now, s, tx).Reverted?
    ensures var batch := tx.op.batch;
      var refusal := MulticallRefusal(c, now, s, tx.value, tx.op.session, tx.op.intent, CallsOf(batch));
      var entered := s.Open(MulticallFrameOf(tx.op.session.body, tx.op.intent.body, tx.value, CallsOf(batch)));
      if refusal.Some? then Exec(c, now, s, tx) == Reverted(refusal.value)
      else
        && k < |batch| && EachReturns(c, now, entered, batch[..k])
        && (forall i :: 0 <= i < k ==> batch[i].call.target == tx.op.intent.body.targetContract)
        && if batch[k].call.target != tx.op.intent.body.targetContract then Exec(c, now, s, tx) == Reverted(CallTargetMismatch)
           else && Exec(c, now, s, tx) == Reverted(MulticallFailed(k))
                && (batch[k].call.value > AfterCalls(c, now, entered, batch[..k]).balance || !EndsInReturn(batch[k].callee))
  {
    hide MulticallRefusal, EnterMulticall, ExecBatch, EachReturns, EndsInReturn;
    var (session, intent, batch) := (tx.op.session, tx.op.intent, tx.op.batch);
    EnterMulticallRefuses(c, now, s, tx.value, session, intent, CallsOf(batch));
    MulticallOpensFrame(c, now, s, tx.value, session, intent, CallsOf(batch));
    k := 0;
    if MulticallRefusal(c, now, s, tx.value, session, intent, CallsOf(batch)).None? {
      var frame := MulticallFrameOf(session.body, intent.body, tx.value, CallsOf(batch));
      k := BatchStopsAtFirstFailure(c, now, s.Open(frame), intent.body.targetContract, batch, 0);
    }
  }

  // What validateUserOp reverts with. Everything else it answers, with a failed or a valid signature.
  function UserOpRefusal(c: Chain, now: Timestamp, s: State, sender: Address, value: Uint256, op: PackedUserOp): Option<Error> {
    Check(value == 0, NotPayable,
    Check(sender == s.entryPoint, OnlyEntryPoint,
    if op.chain.None? then Some(MalformedInput)
    else if s.Status(op.chain.value.0.body.parent) == RecoveryPending then
      Check(SelectsRecovery(c, op.callData), RecoveryBlocksUserOp, None)
    else SessionOpRefusal(c, now, s, op.chain.value.0, op.chain.value.1)))
  }

  function SessionOpRefusal(c: Chain, now: Timestamp, s: State, session: Signed<Session>, intent: Signed<Intent>): Option<Error> {
    var signer := SignerOf(c, SessionMessage(session.body), session.sig);
    if s.Status(session.body.parent) != Active || now > session.body.expiration
       || session.body.chainId != c.chainId % TWO_64 then None
    else
      CheckSig(c, SessionMessage(session.body), session.sig,
      if signer !in s.authorizedKeys || signer != session.body.parent || session.body.session in s.usedSessionKeys
         || now > intent.body.expiration then None
      else
        CheckSig(c, IntentMessage(intent.body), intent.sig,
        if SignerOf(c, IntentMessage(intent.body), intent.sig) != session.body.session
           || intent.body.functionSig != session.body.scope || intent.body.targetContract != session.body.target
           || intent.body.maxValue > session.body.maxValue || intent.body.sessionEpoch != s.Epoch(session.body.parent) then None
        else
          Check(intent.body.requiredClaim == Zeros(32) || (session.body.parent, intent.body.requiredClaim) in s.userClaims,
                ClaimNotSatisfied, None)))
  }

  lemma SessionOpRefuses(c: Chain, now: Timestamp, s: State, session: Signed<Session>, intent: Signed<Intent>, missing: Uint256)
    requires s.Status(session.body.parent) == Active
    ensures var v := CheckChain(c, now, s, session, intent, missing);
            match SessionOpRefusal(c, now, s, session, intent)
            case None => !v.Hard?
            case Some(e) => v == Hard(e)
  {
    RecoverRefuses(c, SessionMessage(session.body), session.sig);
    RecoverRefuses(c, IntentMessage(intent.body), intent.sig);
    hide Recover;
  }

  // The verdict is a revert exactly when one of the checks but that of the value fails.
  lemma VerdictRefuses(c: Chain, now: Timestamp, s: State, sender: Address, op: PackedUserOp, missing: Uint256)
    ensures var v := CheckUserOp(c, now, s, sender, op, missing);
            match UserOpRefusal(c, now, s, sender, 0, op)
            case None => !v.Hard?
            case Some(e) => v == Hard(e)
  {
    hide CheckChain, SessionOpRefusal, IsRecoverySelector, SelectsRecovery;
    if op.chain.Some? {
      RecoveryOpDemands(c, now, s, sender, op, missing);
      if s.Status(op.chain.value.0.body.parent) == Active {
        SessionOpRefuses(c, now, s, op.chain.value.0, op.chain.value.1, missing);
      } else {
        InactiveIsNotRefused(c, now, s, op.chain.value.0, op.chain.value.1);
      }
    }
  }

  // validateUserOp reverts with the first of these checks it fails, and otherwise answers.
  lemma UserOpRefuses(c: Chain, now: Timestamp, s: State, tx: Tx)
    requires tx.op.ValidateUserOp?
    ensures Refuses(Exec(c, now, s, tx), UserOpRefusal(c, now, s, tx.sender, tx.value, tx.op.userOp))
  {
    hide CheckUserOp, SessionOpRefusal, CallOut, SelectsRecovery, SigValid, SigFailed;
    VerdictRefuses(c, now, s, tx.sender, tx.op.userOp, tx.op.missing);
  }

  lemma InactiveIsNotRefused(c: Chain, now: Timestamp, s: State, session: Signed<Session>, intent: Signed<Intent>)
    requires s.Status(session.body.parent) != Active
    ensures SessionOpRefusal(c, now, s, session, intent).None?
  {
  }
}
