/** The one authority all three entry points demand, and what each demands besides. */
module Authority {
  import opened Base
  import opened TypedData
  import opened Storage
  import opened IdentityStore
  import opened Execution
  import opened Linear
  import opened Calls
  import opened SessionKeys
  import opened ValidationData

  /** The certificate half of the signing chain: an active identity, and a live certificate for this chain,
      signed by its authorized parent key, of a session key not yet burned. */
  predicate CertificateHolds(c: Chain, now: Timestamp, s: State, session: Signed<Session>) {
    && s.Status(session.body.parent) == Active
    && now <= session.body.expiration && session.body.chainId == c.ShortId()
    && Recover(c, SessionMessage(session.body), session.sig) == Success(session.body.parent)
    && session.body.parent in s.authorizedKeys
    && session.body.session !in s.usedSessionKeys
  }

  // The intent half, but for the epoch: live, signed by the session key, of its scope and within its cap.
  predicate IntentFits(c: Chain, now: Timestamp, session: Session, intent: Signed<Intent>) {
    && now <= intent.body.expiration
    && Recover(c, IntentMessage(intent.body), intent.sig) == Success(session.session)
    && intent.body.functionSig == session.scope
    && intent.body.maxValue <= session.maxValue
  }

  // The signing chain: a certificate, an intent that fits it, and the current epoch.
  predicate Authorized(c: Chain, now: Timestamp, s: State, session: Signed<Session>, intent: Signed<Intent>) {
    && CertificateHolds(c, now, s, session)
    && IntentFits(c, now, session.body, intent)
    && intent.body.sessionEpoch == s.Epoch(session.body.parent)
  }

  lemma ExecuteDemands(c: Chain, now: Timestamp, s: State, value: Uint256, session: Signed<Session>,
                       intent: Signed<Intent>, target: Address, callData: Bytes)
    ensures EnterExecute(c, now, s, value, session, intent, target, callData).Success? <==>
      && Authorized(c, now, s, session, intent)
      && value <= intent.body.maxValue
      && target == intent.body.targetContract == session.body.target
      && |callData| >= 4 && callData[..4] == intent.body.functionSig
      && c.keccak(callData) == intent.body.callDataHash
  {
    hide Recover;
  }

  lemma MulticallDemands(c: Chain, now: Timestamp, s: State, value: Uint256, session: Signed<Session>,
                         intent: Signed<Intent>, calls: seq<Call>)
    ensures EnterMulticall(c, now, s, value, session, intent, calls).Success? <==>
      && Authorized(c, now, s, session, intent)
      && value <= intent.body.maxValue
      && c.keccak(c.encodeCalls(calls)) == intent.body.callDataHash
      && s.HoldsClaim(session.body.parent, intent.body.requiredClaim)
  {
    hide Recover;
  }

  lemma UserOpDemands(c: Chain, now: Timestamp, s: State, sender: Address, op: PackedUserOp, missing: Uint256)
    requires op.chain.Some?
    ensures var (session, intent) := op.chain.value;
      var v := CheckUserOp(c, now, s, sender, op, missing);
      v.Pass? && v.frame.kind.UserOp? <==>
      && sender == s.entryPoint
      && Authorized(c, now, s, session, intent)
      && intent.body.targetContract == session.body.target
      && s.HoldsClaim(session.body.parent, intent.body.requiredClaim)
  {
    hide Recover, IsRecoverySelector;
  }

  // The call data begins with the selector of one of the functions that manage a recovery.
  predicate SelectsRecovery(c: Chain, callData: Bytes) {
    |callData| >= 4 && exists f: RecoveryFunction :: callData[..4] == c.selectorOf(f)
  }

  lemma SelectorsAreAll(c: Chain, selector: Bytes4)
    ensures IsRecoverySelector(c, selector) <==> exists f: RecoveryFunction :: selector == c.selectorOf(f)
  {
    if f: RecoveryFunction :| selector == c.selectorOf(f) {
      assert f == CancelSelector || f == SupportSelector || f == FinalizeSelector;
    }
  }

  /** While its parent is in recovery an operation goes through exactly when its first four bytes select
      one of the three recovery functions: the session chain it carries is not looked at, and the key
      it names is not burned. */
  lemma RecoveryOpDemands(c: Chain, now: Timestamp, s: State, sender: Address, op: PackedUserOp, missing: Uint256)
    requires op.chain.Some?
    ensures var parent := op.chain.value.0.body.parent;
      var v := CheckUserOp(c, now, s, sender, op, missing);
      && (v.Pass? && !v.frame.BurnsKey() <==>
          sender == s.entryPoint && s.Status(parent) == RecoveryPending && SelectsRecovery(c, op.callData))
      && (s.Status(parent) == RecoveryPending && sender == s.entryPoint && !SelectsRecovery(c, op.callData) ==>
            v == Hard(RecoveryBlocksUserOp))
      && (s.Status(parent) == RecoveryPending ==> v.Hard? || (v.Pass? && !v.frame.BurnsKey()))
  {
    hide Recover, IsRecoverySelector;
    if |op.callData| >= 4 {
      SelectorsAreAll(c, op.callData[..4]);
    }
  }

  /** validateUserOp burns a key without success exactly when the certificate half of the chain holds and
      a later soft check fails. */
  lemma SoftBurnDemands(c: Chain, now: Timestamp, s: State, sender: Address, op: PackedUserOp, missing: Uint256)
    requires op.chain.Some?
    ensures var (session, intent) := op.chain.value;
      var v := CheckUserOp(c, now, s, sender, op, missing);
      var signer := Recover(c, IntentMessage(intent.body), intent.sig);
      v == Soft(Some(session.body.session)) <==>
      && sender == s.entryPoint
      && CertificateHolds(c, now, s, session)
      && (|| now > intent.body.expiration
          || (signer.Success?
              && (|| signer.value != session.body.session || intent.body.functionSig != session.body.scope
                  || intent.body.targetContract != session.body.target
                  || intent.body.maxValue > session.body.maxValue
                  || intent.body.sessionEpoch != s.Epoch(session.body.parent))))
  {
    hide Recover, IsRecoverySelector;
  }

  // ---------------------------------------------------------------------------
  // Whole calls
  // ---------------------------------------------------------------------------

  // execute commits exactly when its demands hold and the forwarded call returns.
  lemma ExecuteCommits(c: Chain, now: Timestamp, s: State, tx: Tx)
    requires tx.op.Execute?
    ensures Exec(c, now, s, tx).Ok? <==>
      && Authorized(c, now, s, tx.op.session, tx.op.intent)
      && tx.value <= tx.op.intent.body.maxValue
      && tx.op.target == tx.op.intent.body.targetContract == tx.op.session.body.target
      && |tx.op.callData| >= 4 && tx.op.callData[..4] == tx.op.intent.body.functionSig
      && c.keccak(tx.op.callData) == tx.op.intent.body.callDataHash
      && EndsInReturn(tx.op.callee)
  {
    hide Recover, Authorized, CallOut, EndsInReturn;
    var (session, intent, target, callData) := (tx.op.session, tx.op.intent, tx.op.target, tx.op.callData);
    ExecuteDemands(c, now, s, tx.value, session, intent, target, callData);
    ExecuteOpensFrame(c, now, s, tx.value, session, intent, target, callData);
    hide EnterExecute;
    CallGoesThrough(c, now, s.Open(ExecuteFrameOf(session.body, intent.body, tx.value, target, callData)),
                    Call(target, tx.value, callData), tx.op.callee);
  }

  function ExecuteFrameOf(session: Session, intent: Intent, value: Uint256, target: Address, callData: Bytes): Frame {
    Frame(Execution, session.session, session.parent, intent.functionSig, target, session.maxValue, value,
          [Call(target, value, callData)])
  }

  lemma ExecuteOpensFrame(c: Chain, now: Timestamp, s: State, value: Uint256, session: Signed<Session>,
                          intent: Signed<Intent>, target: Address, callData: Bytes)
    ensures var entered := EnterExecute(c, now, s, value, session, intent, target, callData);
            entered.Success? ==> entered.value == ExecuteFrameOf(session.body, intent.body, value, target, callData)
  {
    hide Recover;
  }

  // A frame with one call, from its opening to its end.
  lemma FrameSendsOnce(c: Chain, now: Timestamp, s: State, frame: Frame, call: Call, callee: Callee)
    requires frame.todo == [call] && call.target == frame.target
    ensures var o := CallOut(c, now, s.Open(frame), call, callee);
      o.Some? ==>
        && o.value.frames.Push? && Finish(o.value, 0) == Ok(o.value.Close(), 0) && o.value.Close().frames == s.frames
        && SentAt(o.value.Close().log, s.frames.Depth() + 1) == SentAt(s.log, s.frames.Depth() + 1) + [call]
  {
    CallIsALine(c, now, s.Open(frame), call, callee, s.frames.Depth() + 1);
    hide CallOut;
  }

  lemma EmptyFrameSendsNothing(s: State, frame: Frame)
    ensures s.Open(frame).Close().frames == s.frames
    ensures SentAt(s.Open(frame).Close().log, s.frames.Depth() + 1) == SentAt(s.log, s.frames.Depth() + 1)
  {
  }

  /** A committed execute makes exactly one call itself, of its target, with its value and its call data; one that
      does not commit, a reverting target included, has no effect at all. */
  lemma ExecuteMakesItsCall(c: Chain, now: Timestamp, s: State, tx: Tx)
    requires tx.op.Execute?
    ensures var after := Settle(s, Exec(c, now, s, tx));
      var depth := s.frames.Depth() + 1;
      if Exec(c, now, s, tx).Ok? then
        && EndsInReturn(tx.op.callee)
        && SentAt(after.log, depth) == SentAt(s.log, depth) + [Call(tx.op.target, tx.value, tx.op.callData)]
        && after.frames == s.frames
      else after == s
  {
    if Exec(c, now, s, tx).Ok? {
      ExecuteCommits(c, now, s, tx);
      hide Recover, Authorized, CallOut, EndsInReturn, SentAt;
      var (session, intent, target, callData) := (tx.op.session, tx.op.intent, tx.op.target, tx.op.callData);
      ExecuteOpensFrame(c, now, s, tx.value, session, intent, target, callData);
      hide EnterExecute;
      FrameSendsOnce(c, now, s, ExecuteFrameOf(session.body, intent.body, tx.value, target, callData),
                     Call(target, tx.value, callData), tx.op.callee);
    }
  }

  /** executeMulticall is all or nothing. When it commits, its demands hold, every call goes to the
      signed target, and the calls it made itself, in order, are exactly the signed array; otherwise
      it has no effect at all. */
  lemma {:induction false} MulticallIsAllOrNothing(c: Chain, now: Timestamp, s: State, tx: Tx)
    requires tx.op.ExecuteMulticall?
    ensures var after := Settle(s, Exec(c, now, s, tx));
      var depth := s.frames.Depth() + 1;
      var calls := CallsOf(tx.op.batch);
      if Exec(c, now, s, tx).Ok? then
        && Authorized(c, now, s, tx.op.session, tx.op.intent)
        && c.keccak(c.encodeCalls(calls)) == tx.op.intent.body.callDataHash
        && (forall i :: 0 <= i < |calls| ==> calls[i].target == tx.op.intent.body.targetContract)
        && SentAt(after.log, depth) == SentAt(s.log, depth) + calls
        && after.frames == s.frames
      else after == s
  {
    if Exec(c, now, s, tx).Ok? {
      var calls := CallsOf(tx.op.batch);
      MulticallDemands(c, now, s, tx.value, tx.op.session, tx.op.intent, calls);
      MulticallFrame(c, now, s, tx.value, tx.op.session, tx.op.intent, calls);
      hide EnterMulticall, Authorized, ExecBatch;
      var frame := EnterMulticall(c, now, s, tx.value, tx.op.session, tx.op.intent, calls).value;
      BatchHitsOneTarget(c, now, s.Open(frame), tx.op.intent.body.targetContract, tx.op.batch, 0);
      BatchIsALine(c, now, s.Open(frame), tx.op.intent.body.targetContract, tx.op.batch, 0, s.frames.Depth() + 1);
    }
  }

  // ---------------------------------------------------------------------------
  // executeMulticall as a whole
  // ---------------------------------------------------------------------------

  function MulticallFrameOf(session: Session, intent: Intent, value: Uint256, calls: seq<Call>): Frame {
    Frame(Multicall, session.session, session.parent, intent.functionSig, intent.targetContract,
          session.maxValue, value, calls)
  }

  lemma MulticallOpensFrame(c: Chain, now: Timestamp, s: State, value: Uint256, session: Signed<Session>,
                            intent: Signed<Intent>, calls: seq<Call>)
    ensures var entered := EnterMulticall(c, now, s, value, session, intent, calls);
            entered.Success? ==> entered.value == MulticallFrameOf(session.body, intent.body, value, calls)
  {
    hide Recover;
  }

  /** executeMulticall commits exactly when its demands hold, every call of the array is aimed at the signed
      target, and each of them in turn, in the state the ones before it left, is covered by the balance
      and returns. */
  lemma MulticallCommits(c: Chain, now: Timestamp, s: State, tx: Tx)
    requires tx.op.ExecuteMulticall?
    ensures var (session, intent, batch) := (tx.op.session, tx.op.intent, tx.op.batch);
      Exec(c, now, s, tx).Ok? <==>
      && Authorized(c, now, s, session, intent)
      && tx.value <= intent.body.maxValue
      && c.keccak(c.encodeCalls(CallsOf(batch))) == intent.body.callDataHash
      && s.HoldsClaim(session.body.parent, intent.body.requiredClaim)
      && (forall i :: 0 <= i < |batch| ==> batch[i].call.target == intent.body.targetContract)
      && EachReturns(c, now, s.Open(MulticallFrameOf(session.body, intent.body, tx.value, CallsOf(batch))), batch)
  {
    hide Recover, Authorized, EnterMulticall, EachReturns, ExecBatch;
    var (session, intent, batch) := (tx.op.session, tx.op.intent, tx.op.batch);
    MulticallDemands(c, now, s, tx.value, session, intent, CallsOf(batch));
    MulticallOpensFrame(c, now, s, tx.value, session, intent, CallsOf(batch));
    BatchCommits(c, now, s.Open(MulticallFrameOf(session.body, intent.body, tx.value, CallsOf(batch))),
                 intent.body.targetContract, batch, 0);
  }

  // One call whose code reverts undoes the whole multicall.
  lemma RevertingCallUndoesMulticall(c: Chain, now: Timestamp, s: State, tx: Tx, i: nat)
    requires tx.op.ExecuteMulticall? && i < |tx.op.batch| && !EndsInReturn(tx.op.batch[i].callee)
    ensures Settle(s, Exec(c, now, s, tx)) == s
  {
    hide Exec, Authorized, EachReturns, EndsInReturn;
    MulticallCommits(c, now, s, tx);
    if Exec(c, now, s, tx).Ok? {
      var frame := MulticallFrameOf(tx.op.session.body, tx.op.intent.body, tx.value, CallsOf(tx.op.batch));
      EachCalleeReturns(c, now, s.Open(frame), tx.op.batch);
    }
  }

  lemma {:induction false} ToSendAppend(a: seq<Call>, b: seq<Call>)
    ensures ToSend(a + b) == ToSend(a) + ToSend(b)
    decreases |a|
  {
    if a == [] {
      assert a + b == b;
    } else {
      ToSendAppend(a[1..], b);
      assert (a + b)[1..] == a[1..] + b;
    }
  }

  /** A committed multicall sends, at its own depth, exactly the sum of the values in the signed array. Nothing
      else bounds it: it stays within its certificate's cap exactly when that sum does. */
  lemma MulticallSpendsSignedSum(c: Chain, now: Timestamp, s: State, tx: Tx)
    requires tx.op.ExecuteMulticall? && Exec(c, now, s, tx).Ok?
    ensures var after := Exec(c, now, s, tx).st;
      var depth := s.frames.Depth() + 1;
      var spent := ToSend(SentAt(after.log, depth)) - ToSend(SentAt(s.log, depth));
      && spent == ToSend(CallsOf(tx.op.batch))
      && (spent <= tx.op.session.body.maxValue <==> ToSend(CallsOf(tx.op.batch)) <= tx.op.session.body.maxValue)
  {
    hide Exec, Authorized, ToSend, SentAt;
    MulticallIsAllOrNothing(c, now, s, tx);
    ToSendAppend(SentAt(s.log, s.frames.Depth() + 1), CallsOf(tx.op.batch));
  }

  // ---------------------------------------------------------------------------
  // validateUserOp as a whole
  // ---------------------------------------------------------------------------

  function UserOpFrameOf(s: State, session: Session, intent: Intent, missing: Uint256): Frame {
    Frame(UserOp, session.session, session.parent, intent.functionSig, s.entryPoint,
          session.maxValue, 0, PreFund(s, missing))
  }

  function RecoveryFrameOf(s: State, session: Session, selector: Bytes4, missing: Uint256): Frame {
    Frame(RecoveryOp, session.session, session.parent, selector, s.entryPoint, 0, 0, PreFund(s, missing))
  }

  // The missing funds, if any, are there, and the entry point takes them.
  predicate PreFunds(s: State, missing: Uint256, code: Callee) {
    missing == 0 || (missing <= s.balance && EndsInReturn(code))
  }

  lemma UserOpOpensFrame(c: Chain, now: Timestamp, s: State, sender: Address, op: PackedUserOp, missing: Uint256)
    ensures var v := CheckUserOp(c, now, s, sender, op, missing);
      v.Pass? ==>
        && op.chain.Some? && (v.frame.kind.UserOp? || v.frame.kind.RecoveryOp?)
        && v.frame == (if v.frame.BurnsKey() then UserOpFrameOf(s, op.chain.value.0.body, op.chain.value.1.body, missing)
                       else if |op.callData| >= 4
                       then RecoveryFrameOf(s, op.chain.value.0.body, op.callData[..4], missing)
                       else v.frame)
  {
    hide Recover, IsRecoverySelector;
  }

  // The checks alone: what passes, and the frame it opens.
  lemma UserOpPasses(c: Chain, now: Timestamp, s: State, sender: Address, op: PackedUserOp, missing: Uint256)
    requires op.chain.Some?
    ensures var (session, intent) := op.chain.value;
      var v := CheckUserOp(c, now, s, sender, op, missing);
      var pending := s.Status(session.body.parent) == RecoveryPending;
      && (v.Pass? <==>
          && sender == s.entryPoint
          && if pending then SelectsRecovery(c, op.callData)
             else && Authorized(c, now, s, session, intent)
                  && intent.body.targetContract == session.body.target
                  && s.HoldsClaim(session.body.parent, intent.body.requiredClaim))
      && (v.Pass? && pending ==> v.frame == RecoveryFrameOf(s, session.body, op.callData[..4], missing))
      && (v.Pass? && !pending ==> v.frame == UserOpFrameOf(s, session.body, intent.body, missing))
  {
    hide Recover, IsRecoverySelector, CheckUserOp, UserOpFrameOf, RecoveryFrameOf, Authorized;
    UserOpOpensFrame(c, now, s, sender, op, missing);
    UserOpDemands(c, now, s, sender, op, missing);
    RecoveryOpDemands(c, now, s, sender, op, missing);
  }

  lemma PassCarriesNoValue(c: Chain, now: Timestamp, s: State, sender: Address, op: PackedUserOp, missing: Uint256)
    ensures var v := CheckUserOp(c, now, s, sender, op, missing); v.Pass? ==> v.frame.value == 0
  {
    hide Recover, IsRecoverySelector;
  }

  // The reported word alone: valid exactly when the checks passed and the missing funds were sent.
  lemma UserOpReportsValid(c: Chain, now: Timestamp, s: State, tx: Tx)
    requires tx.op.ValidateUserOp?
    ensures var v := CheckUserOp(c, now, s, tx.sender, tx.op.userOp, tx.op.missing);
      var o := Exec(c, now, s, tx);
      o.Ok? && Authorizer(o.data) == 0 <==>
      tx.value == 0 && v.Pass? && PreFunds(s, tx.op.missing, tx.op.entryPointCode)
  {
    hide CheckUserOp, CallOut, PackValidationData, EndsInReturn;
    PassCarriesNoValue(c, now, s, tx.sender, tx.op.userOp, tx.op.missing);
    var v := CheckUserOp(c, now, s, tx.sender, tx.op.userOp, tx.op.missing);
    if v.Pass? {
      CallGoesThrough(c, now, s.Open(v.frame), Call(s.entryPoint, tx.op.missing, []), tx.op.entryPointCode);
    }
    if Exec(c, now, s, tx).Ok? {
      ValidationReportsOutcome(c, now, s, tx);
    }
  }

  /** validateUserOp reports a valid signature exactly when the entry point calls without value, the operation is a
      recovery operation of an identity in recovery, or the signing chain, target and claim of a session
      operation hold, and the missing funds can be sent. */
  lemma UserOpCommits(c: Chain, now: Timestamp, s: State, tx: Tx)
    requires tx.op.ValidateUserOp?
    ensures var (op, missing, code) := (tx.op.userOp, tx.op.missing, tx.op.entryPointCode);
      var o := Exec(c, now, s, tx);
      o.Ok? && Authorizer(o.data) == 0 <==>
      && tx.value == 0 && tx.sender == s.entryPoint && op.chain.Some? && PreFunds(s, missing, code)
      && var (session, intent) := op.chain.value;
         if s.Status(session.body.parent) == RecoveryPending then
           SelectsRecovery(c, op.callData)
         else
           && Authorized(c, now, s, session, intent)
           && intent.body.targetContract == session.body.target
           && s.HoldsClaim(session.body.parent, intent.body.requiredClaim)
  {
    hide Exec, CheckUserOp, PreFunds, Authorized, SelectsRecovery, UserOpFrameOf, RecoveryFrameOf;
    UserOpReportsValid(c, now, s, tx);
    RejectsMalformed(c, now, s, tx.sender, tx.op.userOp, tx.op.missing);
    if tx.op.userOp.chain.Some? {
      UserOpPasses(c, now, s, tx.sender, tx.op.userOp, tx.op.missing);
    }
  }

  /** Of the deployed contract, an operation for a root in recovery reports a valid signature when its call data
      begins with the selector of cancelRecovery, supportRecovery or finalizeRecovery, and only then. */
  lemma RecoveryOpsOfContract(c: Chain, self: Address, now: Timestamp, s: State, tx: Tx)
    requires IsContractAt(c, self) && tx.op.ValidateUserOp? && tx.op.userOp.chain.Some?
    requires s.Status(tx.op.userOp.chain.value.0.body.parent) == RecoveryPending
    requires tx.value == 0 && tx.sender == s.entryPoint && PreFunds(s, tx.op.missing, tx.op.entryPointCode)
    ensures var o := Exec(c, now, s, tx);
      var callData := tx.op.userOp.callData;
      o.Ok? && Authorizer(o.data) == 0 <==>
      && |callData| >= 4
      && (|| callData[..4] == c.keccak(Ascii("cancelRecovery(address)"))[..4]
          || callData[..4] == c.keccak(Ascii("supportRecovery(address,uint8,bytes32,bytes32)"))[..4]
          || callData[..4] == c.keccak(Ascii("finalizeRecovery(address)"))[..4])
  {
    hide Exec, Authorized, PreFunds;
    UserOpCommits(c, now, s, tx);
    if |tx.op.userOp.callData| >= 4 {
      SelectorsOfContract(c, self, tx.op.userOp.callData[..4]);
    }
  }

  lemma SelectorsOfContract(c: Chain, self: Address, selector: Bytes4)
    requires IsContractAt(c, self)
    ensures (exists f: RecoveryFunction :: selector == c.selectorOf(f)) <==>
      || selector == c.keccak(Ascii("cancelRecovery(address)"))[..4]
      || selector == c.keccak(Ascii("supportRecovery(address,uint8,bytes32,bytes32)"))[..4]
      || selector == c.keccak(Ascii("finalizeRecovery(address)"))[..4]
  {
    SelectorsAreAll(c, selector);
    SelectorIsHash(c, self, CancelSelector);
    SelectorIsHash(c, self, SupportSelector);
    SelectorIsHash(c, self, FinalizeSelector);
    hide IsContractAt, Ascii;
  }

  lemma SelectorIsHash(c: Chain, self: Address, f: RecoveryFunction)
    requires IsContractAt(c, self)
    ensures c.selectorOf(f) == c.keccak(Ascii(SignatureOf(f)))[..4]
  {
  }

  /** Pre-funding that the entry point does not take fails the validation without reverting it: nothing is sent and
      nothing stays but the burned key of a session operation. */
  lemma RefusedPreFundBurnsKey(c: Chain, now: Timestamp, s: State, tx: Tx)
    requires tx.op.ValidateUserOp? && tx.value == 0
    requires CheckUserOp(c, now, s, tx.sender, tx.op.userOp, tx.op.missing).Pass?
    requires tx.op.missing > 0 && !(tx.op.missing <= s.balance && EndsInReturn(tx.op.entryPointCode))
    ensures var (o, frame) := (Exec(c, now, s, tx), CheckUserOp(c, now, s, tx.sender, tx.op.userOp, tx.op.missing).frame);
      && o.Ok? && Authorizer(o.data) == 1
      && o.st == if frame.BurnsKey() then s.BurnSoftly(frame.session) else s
  {
    hide CallOut, EndsInReturn, PackValidationData, CheckUserOp;
    var v := CheckUserOp(c, now, s, tx.sender, tx.op.userOp, tx.op.missing);
    PassCarriesNoValue(c, now, s, tx.sender, tx.op.userOp, tx.op.missing);
    CallGoesThrough(c, now, s.Open(v.frame), Call(s.entryPoint, tx.op.missing, []), tx.op.entryPointCode);
    PackingIsInvertible(true, 0, 0);
  }

  // What an accepted operation sends at its own depth: the missing funds, to the entry point, if any are missing.
  lemma AcceptedOpSendsMissingFunds(c: Chain, now: Timestamp, s: State, tx: Tx)
    requires tx.op.ValidateUserOp? && tx.value == 0
    requires CheckUserOp(c, now, s, tx.sender, tx.op.userOp, tx.op.missing).Pass?
    requires PreFunds(s, tx.op.missing, tx.op.entryPointCode)
    ensures var o := Exec(c, now, s, tx);
      var depth := s.frames.Depth() + 1;
      && o.Ok? && o.st.frames == s.frames
      && SentAt(o.st.log, depth)
         == SentAt(s.log, depth) + if tx.op.missing > 0 then [Call(s.entryPoint, tx.op.missing, [])] else []
  {
    hide Answer, EndsInReturn, SigValid, CheckUserOp, Authorized;
    var v := CheckUserOp(c, now, s, tx.sender, tx.op.userOp, tx.op.missing);
    PassCarriesNoValue(c, now, s, tx.sender, tx.op.userOp, tx.op.missing);
    UserOpFrame(c, now, s, tx.sender, tx.op.userOp, tx.op.missing);
    var call := Call(s.entryPoint, tx.op.missing, []);
    CallGoesThrough(c, now, s.Open(v.frame), call, tx.op.entryPointCode);
    hide CallOut;
    if tx.op.missing > 0 {
      FrameSendsOnce(c, now, s, v.frame, call, tx.op.entryPointCode);
      hide SentAt;
    } else {
      EmptyFrameSendsNothing(s, v.frame);
      hide SentAt;
    }
  }

  // ---------------------------------------------------------------------------
  // What execute does not look at
  // ---------------------------------------------------------------------------

  function Elsewhere(s: State, nonces: map<Address, Uint256>, delegationNonces: map<Address, Uint256>,
                     claims: set<(Address, Bytes32)>): State
  {
    s.(nonces := nonces, delegationNonces := delegationNonces, userClaims := claims)
  }

  /** The checks of execute have the same outcome whatever the nonces and the granted claims are. */
  lemma ExecuteIgnoresNoncesAndClaims(c: Chain, now: Timestamp, s: State, value: Uint256, session: Signed<Session>,
                                      intent: Signed<Intent>, target: Address, callData: Bytes,
                                      nonces: map<Address, Uint256>, delegationNonces: map<Address, Uint256>,
                                      claims: set<(Address, Bytes32)>)
    ensures EnterExecute(c, now, Elsewhere(s, nonces, delegationNonces, claims), value, session, intent, target, callData)
            == EnterExecute(c, now, s, value, session, intent, target, callData)
  {
    hide Recover;
  }

  // ---------------------------------------------------------------------------
  // Runs
  // ---------------------------------------------------------------------------

  // A step that opens a session action does so under the shared authority.
  predicate OpensAuthorized(c: Chain, s: State, m: Small) {
    match m
    case OpenExecute(now, value, session, intent, _, _) =>
      Authorized(c, now, s, session, intent) && value <= intent.body.maxValue
    case OpenMulticall(now, value, session, intent, _) =>
      Authorized(c, now, s, session, intent) && value <= intent.body.maxValue
    case OpenUserOp(now, sender, op, _) =>
      && sender == s.entryPoint && op.chain.Some?
      && (s.Status(op.chain.value.0.body.parent) != RecoveryPending ==>
            Authorized(c, now, s, op.chain.value.0, op.chain.value.1))
    case _ => true
  }

  predicate AllAuthorized(c: Chain, s: State, line: seq<Small>)
    decreases |line|
  {
    line == []
    || (OpensAuthorized(c, s, line[0])
        && (Next(c, s, line[0]).Some? ==> AllAuthorized(c, Next(c, s, line[0]).value, line[1..])))
  }

  lemma StepIsAuthorized(c: Chain, s: State, m: Small)
    requires Next(c, s, m).Some?
    ensures OpensAuthorized(c, s, m)
  {
    hide Direct, EnterExecute, EnterMulticall, CheckUserOp, Authorized, Recover, IsRecoverySelector;
    match m {
      case OpenExecute(now, value, session, intent, target, callData) =>
        ExecuteDemands(c, now, s, value, session, intent, target, callData);
      case OpenMulticall(now, value, session, intent, calls) =>
        MulticallDemands(c, now, s, value, session, intent, calls);
      case OpenUserOp(now, sender, op, missing) =>
        RejectsMalformed(c, now, s, sender, op, missing);
        UserOpDemands(c, now, s, sender, op, missing);
        RecoveryOpDemands(c, now, s, sender, op, missing);
        UserOpOpensFrame(c, now, s, sender, op, missing);
      case _ =>
    }
  }

  lemma {:induction false} LineIsAuthorized(c: Chain, s: State, line: seq<Small>)
    requires Steps(c, s, line).Some?
    ensures AllAuthorized(c, s, line)
    decreases |line|
  {
    if line != [] {
      StepIsAuthorized(c, s, line[0]);
      hide Next, OpensAuthorized;
      LineIsAuthorized(c, Next(c, s, line[0]).value, line[1..]);
    }
  }

  /** In every run, whatever re-enters, each session action that commits began in a state in which the shared
      authority held. */
  lemma RunsAreAuthorized(c: Chain, owner: Address, blocks: seq<Block>)
    ensures AllAuthorized(c, Deployed(owner), RunLine(c, Deployed(owner), blocks))
  {
    hide Next, OpensAuthorized;
    RunIsALine(c, Deployed(owner), blocks);
    LineIsAuthorized(c, Deployed(owner), RunLine(c, Deployed(owner), blocks));
  }

  // ---------------------------------------------------------------------------
  // What an epoch does not end
  // ---------------------------------------------------------------------------

  /** cancelAllSessions ends intents, not certificates: every certificate holds afterwards as it did before, and
      those of the root authorize exactly the fitting intents that name the new epoch. */
  lemma CertificatesOutliveEpochs(c: Chain, now: Timestamp, s: State, sender: Address, root: Address,
                                  session: Signed<Session>, intent: Signed<Intent>)
    requires CancelAllSessionsStep(s, sender, root).Ok?
    ensures var cut := CancelAllSessionsStep(s, sender, root).st;
      && (CertificateHolds(c, now, cut, session) <==> CertificateHolds(c, now, s, session))
      && (session.body.parent == root ==>
            (Authorized(c, now, cut, session, intent) <==>
               && CertificateHolds(c, now, s, session) && IntentFits(c, now, session.body, intent)
               && intent.body.sessionEpoch == s.Epoch(root) + 1))
  {
    hide Recover;
  }

  /** validateDelegatedIntent accepts exactly a live delegation of a registered prover with its nonce, and a live
      intent signed by the delegate, within scope, cap and received value, with the delegate's nonce. The
      epoch, and with it cancelAllSessions, plays no part. */
  lemma DelegatedDemands(c: Chain, now: Timestamp, s: State, value: Uint256, d: Signed<Delegation>, p: Signed<Intent>)
    ensures ValidateDelegatedStep(c, now, s, value, d, p).Ok? <==>
      && now <= d.body.expiration && now <= p.body.expiration && value <= p.body.maxValue
      && (var prover := Recover(c, DelegationMessage(d.body), d.sig);
          && prover.Success? && prover.value in s.authorizedProvers
          && d.body.nonce == s.DelegationNonce(prover.value))
      && Recover(c, IntentMessage(p.body), p.sig) == Success(d.body.delegate)
      && p.body.functionSig == d.body.scope && p.body.maxValue <= d.body.maxValue
      && p.body.nonce == s.Nonce(d.body.delegate)
  {
    hide Recover;
  }
}
