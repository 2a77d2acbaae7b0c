/** The three entry points that check a session chain and then call other contracts
    (ExecutionGateway.sol, HuntKeyAccount.sol), and whole transactions with re-entrancy. */
module Execution {
  import opened Base
  import opened TypedData
  import opened Storage
  import opened IdentityStore

  // ---------------------------------------------------------------------------
  // Checks before the external calls
  // ---------------------------------------------------------------------------

  // execute, up to the forwarded call (ExecutionGateway.sol).
  function EnterExecute(c: Chain, now: Timestamp, s: State, value: Uint256, session: Signed<Session>,
                        intent: Signed<Intent>, target: Address, callData: Bytes): Result<Frame, Error>
  {
    if s.Status(session.body.parent) != Active then Failure(IdentityNotActive)
    else if now > session.body.expiration then Failure(SessionExpired)
    else if session.body.chainId != c.ShortId() then Failure(SessionChainMismatch)
    else match Recover(c, SessionMessage(session.body), session.sig)
    case Failure(e) => Failure(e)
    case Success(sessionSigner) =>
      if sessionSigner !in s.authorizedKeys then Failure(SessionParentNotAuthorized)
      else if sessionSigner != session.body.parent then Failure(SignerNotDeclaredParent)
      else if session.body.session in s.usedSessionKeys then Failure(SessionKeyAlreadyUsed)
      else if now > intent.body.expiration then Failure(IntentExpired)
      else if value > intent.body.maxValue then Failure(ValueExceedsCap)
      else match Recover(c, IntentMessage(intent.body), intent.sig)
      case Failure(e) => Failure(e)
      case Success(intentSigner) =>
        if intentSigner != session.body.session then Failure(IntentNotSignedBySessionKey)
        else if intent.body.functionSig != session.body.scope then Failure(IntentScopeMismatch)
        else if intent.body.targetContract != session.body.target then Failure(IntentTargetMismatch)
        else if target != intent.body.targetContract then Failure(CallTargetMismatch)
        else if |callData| < 4 then Failure(CalldataTooShort)
        else if callData[..4] != intent.body.functionSig then Failure(SelectorMismatch)
        else if c.keccak(callData) != intent.body.callDataHash then Failure(CalldataHashMismatch)
        else if intent.body.maxValue > session.body.maxValue then Failure(IntentExceedsSessionCap)
        else if intent.body.sessionEpoch != s.Epoch(session.body.parent) then Failure(SessionEpochMismatch)
        else
          Success(Frame(Execution, session.body.session, session.body.parent, intent.body.functionSig, target,
                        session.body.maxValue, value, [Call(target, value, callData)]))
  }

  // executeMulticall, up to its loop (HuntKeyAccount.sol).
  function EnterMulticall(c: Chain, now: Timestamp, s: State, value: Uint256, session: Signed<Session>,
                          intent: Signed<Intent>, calls: seq<Call>): Result<Frame, Error>
  {
    if s.Status(session.body.parent) != Active then Failure(IdentityNotActive)
    else if now > session.body.expiration then Failure(SessionExpired)
    else if session.body.chainId != c.ShortId() then Failure(SessionChainMismatch)
    else match Recover(c, SessionMessage(session.body), session.sig)
    case Failure(e) => Failure(e)
    case Success(sessionSigner) =>
      if sessionSigner !in s.authorizedKeys then Failure(SessionParentNotAuthorized)
      else if sessionSigner != session.body.parent then Failure(SignerNotDeclaredParent)
      else if session.body.session in s.usedSessionKeys then Failure(SessionKeyAlreadyUsed)
      else if now > intent.body.expiration then Failure(IntentExpired)
      else if value > intent.body.maxValue then Failure(ValueExceedsCap)
      else match Recover(c, IntentMessage(intent.body), intent.sig)
      case Failure(e) => Failure(e)
      case Success(intentSigner) =>
        if intentSigner != session.body.session then Failure(IntentNotSignedBySessionKey)
        else if intent.body.functionSig != session.body.scope then Failure(IntentScopeMismatch)
        else if intent.body.maxValue > session.body.maxValue then Failure(IntentExceedsSessionCap)
        else if intent.body.sessionEpoch != s.Epoch(session.body.parent) then Failure(SessionEpochMismatch)
        else if c.keccak(c.encodeCalls(calls)) != intent.body.callDataHash then Failure(CalldataHashMismatch)
        else if !s.HoldsClaim(session.body.parent, intent.body.requiredClaim) then Failure(ClaimNotSatisfied)
        else
          Success(Frame(Multicall, session.body.session, session.body.parent, intent.body.functionSig,
                        intent.body.targetContract, session.body.maxValue, value, calls))
  }

  // The parts of a PackedUserOperation the account reads; its signature field, if it decodes.
  datatype PackedUserOp = PackedUserOp(callData: Bytes, chain: Option<(Signed<Session>, Signed<Intent>)>)

  /** What validateUserOp decides before pre-funding: revert, report a failed signature
      (having burned the session key or not), or go on with an open frame. */
  datatype UserOpVerdict = Hard(error: Error) | Soft(burned: Option<Address>) | Pass(frame: Frame)

  predicate IsRecoverySelector(c: Chain, selector: Bytes4) {
    || selector == c.selectorOf(CancelSelector)
    || selector == c.selectorOf(SupportSelector)
    || selector == c.selectorOf(FinalizeSelector)
  }

  function PreFund(s: State, missing: Uint256): seq<Call> {
    if missing > 0 then [Call(s.entryPoint, missing, [])] else []
  }

  function CheckUserOp(c: Chain, now: Timestamp, s: State, sender: Address, op: PackedUserOp, missing: Uint256): UserOpVerdict {
    if sender != s.entryPoint then Hard(OnlyEntryPoint)
    else if op.chain.None? then Hard(MalformedInput)
    else
      var (session, intent) := op.chain.value;
      if s.Status(session.body.parent) == RecoveryPending then
        if |op.callData| < 4 || !IsRecoverySelector(c, op.callData[..4]) then Hard(RecoveryBlocksUserOp)
        else
          Pass(Frame(RecoveryOp, session.body.session, session.body.parent, op.callData[..4], s.entryPoint,
                     0, 0, PreFund(s, missing)))
      else if s.Status(session.body.parent) != Active then Soft(None)
      else CheckChain(c, now, s, session, intent, missing)
  }

  // Layers 1 to 3 of validateUserOp for an active identity.
  function CheckChain(c: Chain, now: Timestamp, s: State, session: Signed<Session>, intent: Signed<Intent>,
                      missing: Uint256): UserOpVerdict
  {
    if now > session.body.expiration then Soft(None)
    else if session.body.chainId != c.ShortId() then Soft(None)
    else match Recover(c, SessionMessage(session.body), session.sig)
    case Failure(e) => Hard(e)
    case Success(sessionSigner) =>
      if sessionSigner !in s.authorizedKeys then Soft(None)
      else if sessionSigner != session.body.parent then Soft(None)
      else if session.body.session in s.usedSessionKeys then Soft(None)
      else
        var burned := Soft(Some(session.body.session));
        if now > intent.body.expiration then burned
        else match Recover(c, IntentMessage(intent.body), intent.sig)
        case Failure(e) => Hard(e)
        case Success(intentSigner) =>
          if intentSigner != session.body.session then burned
          else if intent.body.functionSig != session.body.scope then burned
          else if intent.body.targetContract != session.body.target then burned
          else if intent.body.maxValue > session.body.maxValue then burned
          else if intent.body.sessionEpoch != s.Epoch(session.body.parent) then burned
          else if !s.HoldsClaim(session.body.parent, intent.body.requiredClaim) then Hard(ClaimNotSatisfied)
          else
            Pass(Frame(UserOp, session.body.session, session.body.parent, intent.body.functionSig, s.entryPoint,
                       session.body.maxValue, 0, PreFund(s, missing)))
  }

  // ---------------------------------------------------------------------------
  // ERC-4337 validation data
  // ---------------------------------------------------------------------------

  // Bitwise or of two unsigned numbers.
  function Or(x: nat, y: nat): nat {
    if x == 0 then y else if y == 0 then x
    else (if x % 2 == 1 || y % 2 == 1 then 1 else 0) + 2 * Or(x / 2, y / 2)
  }

  // _packValidationData: authorizer, validUntil << 160, validAfter << 208.
  function PackValidationData(sigFailed: bool, validUntil: Uint48, validAfter: Uint48): nat {
    Or(Or(if sigFailed then 1 else 0, validUntil * TWO_160), validAfter * TWO_208)
  }

  function SigFailed(): nat {
    PackValidationData(true, 0, 0)
  }

  function SigValid(session: Session): nat {
    PackValidationData(false, session.expiration % TWO_48, 0)
  }

  // ---------------------------------------------------------------------------
  // Transactions
  // ---------------------------------------------------------------------------

  datatype Tx = Tx(sender: Address, value: Uint256, op: Op)

  datatype Op =
    | Plain(direct: DirectOp)
    | Execute(session: Signed<Session>, intent: Signed<Intent>, target: Address, callData: Bytes, callee: Callee)
    | ExecuteMulticall(session: Signed<Session>, intent: Signed<Intent>, batch: seq<Invocation>)
    | ValidateUserOp(userOp: PackedUserOp, missing: Uint256, entryPointCode: Callee)

  /** What called code does: any finite sequence of calls back into the account, by any
      senders, whose own failures it may ignore; then it returns or reverts. */
  datatype Callee = Returns | Reverts | Then(reentry: Tx, rest: Callee)

  // One element of executeMulticall's array, with the behaviour of the code it calls.
  datatype Invocation = Invocation(call: Call, callee: Callee)

  function CallsOf(batch: seq<Invocation>): seq<Call> {
    if batch == [] then [] else [batch[0].call] + CallsOf(batch[1..])
  }

  // A reverted call leaves the state it started from.
  function Settle(s: State, o: Outcome): State {
    if o.Ok? then o.st else s
  }

  function Exec(c: Chain, now: Timestamp, s: State, tx: Tx): Outcome
    decreases tx, 0
  {
    match tx.op
    case Plain(op) => Direct(c, now, s, tx.sender, tx.value, op)
    case Execute(session, intent, target, callData, callee) => (
      match EnterExecute(c, now, s, tx.value, session, intent, target, callData)
      case Failure(e) => Reverted(e)
      case Success(frame) =>
        match CallOut(c, now, s.Open(frame), Call(target, tx.value, callData), callee)
        case None => Reverted(CallReverted)
        case Some(after) => Finish(after, 0)
    )
    case ExecuteMulticall(session, intent, batch) => (
      match EnterMulticall(c, now, s, tx.value, session, intent, CallsOf(batch))
      case Failure(e) => Reverted(e)
      case Success(frame) => ExecBatch(c, now, s.Open(frame), intent.body.targetContract, batch, 0)
    )
    case ValidateUserOp(userOp, missing, entryPointCode) =>
      if tx.value != 0 then Reverted(NotPayable)
      else
        ExecUserOp(c, now, s, CheckUserOp(c, now, s, tx.sender, userOp, missing), userOp, missing, entryPointCode)
  }

  // validateUserOp after its checks: pre-fund, then report. A failed pre-fund call still burns the key.
  function ExecUserOp(c: Chain, now: Timestamp, s: State, verdict: UserOpVerdict, userOp: PackedUserOp,
                      missing: Uint256, code: Callee): Outcome
    decreases code, 4
  {
    match verdict
    case Hard(e) => Reverted(e)
    case Soft(None) => Ok(s, SigFailed())
    case Soft(Some(session)) => Ok(s.BurnSoftly(session), SigFailed())
    case Pass(frame) =>
      var valid := if userOp.chain.Some? then SigValid(userOp.chain.value.0.body) else 0;
      if missing == 0 then Finish(s.Open(frame), valid)
      else match CallOut(c, now, s.Open(frame), Call(s.entryPoint, missing, []), code)
      case Some(after) => Finish(after, valid)
      case None => Ok(if frame.BurnsKey() then s.BurnSoftly(frame.session) else s, SigFailed())
  }

  function Finish(s: State, data: nat): Outcome {
    if s.frames.Push? then Ok(s.Close(), data) else Ok(s, data)
  }

  // target.call{value: v}(data): fails when the balance is short or the callee reverts.
  function CallOut(c: Chain, now: Timestamp, s: State, call: Call, callee: Callee): Option<State>
    decreases callee, 1
  {
    if call.value > s.balance || s.frames.Idle? then None
    else Answer(c, now, s.SendOut(call), callee)
  }

  function Answer(c: Chain, now: Timestamp, s: State, callee: Callee): Option<State>
    decreases callee, 0
  {
    match callee
    case Returns => Some(s)
    case Reverts => None
    case Then(reentry, rest) => Answer(c, now, Settle(s, Exec(c, now, s, reentry)), rest)
  }

  // The loop of executeMulticall from call number `index` on.
  function ExecBatch(c: Chain, now: Timestamp, s: State, target: Address, batch: seq<Invocation>, index: nat): Outcome
    decreases batch, 2
  {
    if batch == [] then Finish(s, 0)
    else if batch[0].call.target != target then Reverted(CallTargetMismatch)
    else match Invoke(c, now, s, batch[0])
    case None => Reverted(MulticallFailed(index))
    case Some(after) => ExecBatch(c, now, after, target, batch[1..], index + 1)
  }

  function Invoke(c: Chain, now: Timestamp, s: State, i: Invocation): Option<State>
    decreases i, 2
  {
    CallOut(c, now, s, i.call, i.callee)
  }

  // A run of the chain: transactions at given block times, failed ones without effect.
  datatype Block = Block(now: Timestamp, tx: Tx)

  function Run(c: Chain, s: State, blocks: seq<Block>): State
    decreases |blocks|
  {
    if blocks == [] then s
    else
      var first := blocks[0];
      Run(c, Settle(s, Exec(c, first.now, s, first.tx)), blocks[1..])
  }
}
