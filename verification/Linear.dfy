/** Re-entrant transactions as straight lines. Whatever a transaction keeps, after every nested
    call and every rollback, it could have reached by a sequence of small steps, each of which
    succeeds on the state before it. Properties of all runs are proved on those sequences. */
module Linear {
  import opened Base
  import opened TypedData
  import opened Storage
  import opened IdentityStore
  import opened Execution

  datatype Small =
    | Step(now: Timestamp, sender: Address, value: Uint256, op: DirectOp)
    | OpenExecute(now: Timestamp, value: Uint256, session: Signed<Session>, intent: Signed<Intent>,
                  target: Address, callData: Bytes)
    | OpenMulticall(now: Timestamp, value: Uint256, session: Signed<Session>, intent: Signed<Intent>, calls: seq<Call>)
    | OpenUserOp(now: Timestamp, sender: Address, userOp: PackedUserOp, missing: Uint256)
    | BurnUserOp(now: Timestamp, sender: Address, userOp: PackedUserOp, missing: Uint256)
    | MakeCall
    | Return

  function Opened(s: State, entered: Result<Frame, Error>): Option<State> {
    if entered.Success? then Some(s.Open(entered.value)) else None
  }

  // The state after one small step, None when the step is not enabled.
  function Next(c: Chain, s: State, m: Small): Option<State> {
    match m
    case Step(now, sender, value, op) =>
      var o := Direct(c, now, s, sender, value, op);
      if o.Ok? then Some(o.st) else None
    case OpenExecute(now, value, session, intent, target, callData) =>
      Opened(s, EnterExecute(c, now, s, value, session, intent, target, callData))
    case OpenMulticall(now, value, session, intent, calls) =>
      Opened(s, EnterMulticall(c, now, s, value, session, intent, calls))
    case OpenUserOp(now, sender, userOp, missing) =>
      var v := CheckUserOp(c, now, s, sender, userOp, missing);
      if v.Pass? then Some(s.Open(v.frame)) else None
    case BurnUserOp(now, sender, userOp, missing) =>
      var v := CheckUserOp(c, now, s, sender, userOp, missing);
      if v.Soft? && v.burned.Some? then Some(s.BurnSoftly(v.burned.value))
      else if v.Pass? && v.frame.BurnsKey() then Some(s.BurnSoftly(v.frame.session))
      else None
    case MakeCall =>
      if s.frames.Push? && s.frames.top.todo != [] && s.frames.top.todo[0].target == s.frames.top.target
         && s.frames.top.todo[0].value <= s.balance
      then Some(s.SendOut(s.frames.top.todo[0])) else None
    case Return =>
      if s.frames.Push? && s.frames.top.todo == [] then Some(s.Close()) else None
  }

  // ---------------------------------------------------------------------------
  // What a small step does to the session keys and the open calls
  // ---------------------------------------------------------------------------

  datatype Effect = Opening(frame: Frame) | Burning(session: Address) | Sending | Closing

  predicate Enabled(s: State, e: Effect) {
    match e
    case Opening(f) =>
      && (f.BurnsKey() ==> f.session !in s.usedSessionKeys)
      && (f.kind.Execution? ==> f.value <= f.cap && |f.todo| == 1 && f.todo[0].value == f.value)
    case Burning(k) => k !in s.usedSessionKeys
    case Sending => s.frames.Push? && s.frames.top.todo != [] && s.frames.top.todo[0].value <= s.balance
    case Closing => s.frames.Push? && s.frames.top.todo == []
  }

  function Affect(s: State, e: Effect): State
    requires Enabled(s, e)
  {
    match e
    case Opening(f) => s.Open(f)
    case Burning(k) => s.BurnSoftly(k)
    case Sending => s.SendOut(s.frames.top.todo[0])
    case Closing => s.Close()
  }

  lemma ExecuteOpens(c: Chain, now: Timestamp, s: State, value: Uint256, session: Signed<Session>,
                     intent: Signed<Intent>, target: Address, callData: Bytes)
    ensures var e := EnterExecute(c, now, s, value, session, intent, target, callData);
            e.Success? ==> Enabled(s, Opening(e.value))
  {
  }

  lemma MulticallOpens(c: Chain, now: Timestamp, s: State, value: Uint256, session: Signed<Session>,
                       intent: Signed<Intent>, calls: seq<Call>)
    ensures var e := EnterMulticall(c, now, s, value, session, intent, calls);
            e.Success? ==> Enabled(s, Opening(e.value)) && e.value.kind.Multicall?
  {
  }

  lemma UserOpOpens(c: Chain, now: Timestamp, s: State, sender: Address, op: PackedUserOp, missing: Uint256)
    ensures var v := CheckUserOp(c, now, s, sender, op, missing);
            && (v.Pass? ==> Enabled(s, Opening(v.frame)))
            && (v.Pass? && v.frame.BurnsKey() ==> Enabled(s, Burning(v.frame.session)))
            && (v.Soft? && v.burned.Some? ==> Enabled(s, Burning(v.burned.value)))
  {
  }

  lemma CallStepEffect(c: Chain, s: State, m: Small) returns (e: Effect)
    requires Next(c, s, m).Some? && !m.Step?
    ensures Enabled(s, e) && Next(c, s, m) == Some(Affect(s, e))
  {
    hide EnterExecute, EnterMulticall, CheckUserOp;
    match m {
      case OpenExecute(now, value, session, intent, target, callData) =>
        ExecuteOpens(c, now, s, value, session, intent, target, callData);
        e := Opening(EnterExecute(c, now, s, value, session, intent, target, callData).value);
      case OpenMulticall(now, value, session, intent, calls) =>
        MulticallOpens(c, now, s, value, session, intent, calls);
        e := Opening(EnterMulticall(c, now, s, value, session, intent, calls).value);
      case OpenUserOp(now, sender, userOp, missing) =>
        UserOpOpens(c, now, s, sender, userOp, missing);
        e := Opening(CheckUserOp(c, now, s, sender, userOp, missing).frame);
      case BurnUserOp(now, sender, userOp, missing) =>
        UserOpOpens(c, now, s, sender, userOp, missing);
        var v := CheckUserOp(c, now, s, sender, userOp, missing);
        e := Burning(if v.Soft? then v.burned.value else v.frame.session);
      case MakeCall => e := Sending;
      case Return => e := Closing;
    }
  }

  predicate IsCallEvent(e: Event) {
    e.Opened? || e.SoftBurned? || e.CalledOut? || e.Executed? || e.MulticallExecuted? || e.UserOpValidated?
    || e.RecoveryOpValidated?
  }

  // A call of another function leaves the session keys and the open calls alone.
  predicate RunsDirectly(s: State, t: State) {
    && t.usedSessionKeys == s.usedSessionKeys && t.frames == s.frames
    && (t.log == s.log || (t.log.Snoc? && t.log.before == s.log && !IsCallEvent(t.log.last)))
  }

  lemma DirectShape(c: Chain, now: Timestamp, s: State, sender: Address, value: Uint256, op: DirectOp)
    ensures Direct(c, now, s, sender, value, op).Ok? ==> RunsDirectly(s, Direct(c, now, s, sender, value, op).st)
  {
    hide ValidateIntentStep, ValidateDelegatedStep;
    hide InitiateRecoveryStep, SupportRecoveryStep, CancelRecoveryStep, FinalizeRecoveryStep;
    match op {
      case ValidateIntent(_) => ValidationShape(c, now, s, value, op);
      case ValidateDelegatedIntent(_, _) => ValidationShape(c, now, s, value, op);
      case InitiateRecovery(oldRoot, newRoot, sig) => InitiateShape(c, now, s, oldRoot, newRoot, sig);
      case SupportRecovery(oldRoot, sig) => SupportShape(c, now, s, oldRoot, sig);
      case CancelRecovery(oldRoot) => CancelShape(s, sender, oldRoot);
      case FinalizeRecovery(oldRoot) => FinalizeShape(now, s, oldRoot);
      case _ => OtherShape(c, now, s, sender, value, op);
    }
  }

  lemma ValidationShape(c: Chain, now: Timestamp, s: State, value: Uint256, op: DirectOp)
    ensures op.ValidateIntent? ==>
      var o := ValidateIntentStep(c, now, s, value, op.intent); o.Ok? ==> RunsDirectly(s, o.st)
    ensures op.ValidateDelegatedIntent? ==>
      var o := ValidateDelegatedStep(c, now, s, value, op.delegation, op.intent); o.Ok? ==> RunsDirectly(s, o.st)
  {
    hide Recover;
  }

  lemma InitiateShape(c: Chain, now: Timestamp, s: State, oldRoot: Address, newRoot: Address, sig: Sig)
    ensures var o := InitiateRecoveryStep(c, now, s, oldRoot, newRoot, sig); o.Ok? ==> RunsDirectly(s, o.st)
  {
    hide Recover;
  }

  lemma SupportShape(c: Chain, now: Timestamp, s: State, oldRoot: Address, sig: Sig)
    ensures var o := SupportRecoveryStep(c, now, s, oldRoot, sig); o.Ok? ==> RunsDirectly(s, o.st)
  {
    hide Recover;
  }

  lemma CancelShape(s: State, sender: Address, oldRoot: Address)
    ensures var o := CancelRecoveryStep(s, sender, oldRoot); o.Ok? ==> RunsDirectly(s, o.st)
  {
    hide ClearFlags;
  }

  lemma FinalizeShape(now: Timestamp, s: State, oldRoot: Address)
    ensures var o := FinalizeRecoveryStep(now, s, oldRoot); o.Ok? ==> RunsDirectly(s, o.st)
  {
    hide ClearFlags;
  }

  lemma OtherShape(c: Chain, now: Timestamp, s: State, sender: Address, value: Uint256, op: DirectOp)
    requires !op.ValidateIntent? && !op.ValidateDelegatedIntent?
    requires !op.InitiateRecovery? && !op.SupportRecovery? && !op.CancelRecovery? && !op.FinalizeRecovery?
    ensures Direct(c, now, s, sender, value, op).Ok? ==> RunsDirectly(s, Direct(c, now, s, sender, value, op).st)
  {
    hide ValidateIntentStep, ValidateDelegatedStep;
    hide InitiateRecoveryStep, SupportRecoveryStep, CancelRecoveryStep, FinalizeRecoveryStep;
  }

  function Steps(c: Chain, s: State, line: seq<Small>): Option<State>
    decreases |line|
  {
    if line == [] then Some(s)
    else match Next(c, s, line[0])
    case None => None
    case Some(after) => Steps(c, after, line[1..])
  }

  lemma {:induction false} StepsAppend(c: Chain, s: State, a: seq<Small>, b: seq<Small>)
    requires Steps(c, s, a).Some?
    ensures Steps(c, s, a + b) == Steps(c, Steps(c, s, a).value, b)
    decreases |a|
  {
    hide Next;
    if a == [] {
      assert a + b == b;
    } else {
      StepsAppend(c, Next(c, s, a[0]).value, a[1..], b);
      assert (a + b)[1..] == a[1..] + b;
    }
  }

  // ---------------------------------------------------------------------------
  // The line of a transaction
  // ---------------------------------------------------------------------------

  function Line(c: Chain, now: Timestamp, s: State, tx: Tx): seq<Small>
    decreases tx, 0
  {
    if Exec(c, now, s, tx).Reverted? then []
    else match tx.op
    case Plain(op) => [Step(now, tx.sender, tx.value, op)]
    case Execute(session, intent, target, callData, callee) =>
      var inside := s.Open(EnterExecute(c, now, s, tx.value, session, intent, target, callData).value);
      [OpenExecute(now, tx.value, session, intent, target, callData)]
      + LineOfCall(c, now, inside, Call(target, tx.value, callData), callee) + [Return]
    case ExecuteMulticall(session, intent, batch) =>
      var inside := s.Open(EnterMulticall(c, now, s, tx.value, session, intent, CallsOf(batch)).value);
      [OpenMulticall(now, tx.value, session, intent, CallsOf(batch))] + LineOfBatch(c, now, inside, batch)
    case ValidateUserOp(userOp, missing, entryPointCode) =>
      LineOfUserOp(c, now, s, CheckUserOp(c, now, s, tx.sender, userOp, missing),
                   OpenUserOp(now, tx.sender, userOp, missing), BurnUserOp(now, tx.sender, userOp, missing),
                   missing, entryPointCode)
  }

  function LineOfUserOp(c: Chain, now: Timestamp, s: State, verdict: UserOpVerdict, enter: Small, burn: Small,
                        missing: Uint256, code: Callee): seq<Small>
    decreases code, 4
  {
    match verdict
    case Hard(_) => []
    case Soft(None) => []
    case Soft(Some(_)) => [burn]
    case Pass(frame) =>
      var call := Call(s.entryPoint, missing, []);
      if missing == 0 then [enter] + [Return]
      else if CallOut(c, now, s.Open(frame), call, code).Some? then
        [enter] + LineOfCall(c, now, s.Open(frame), call, code) + [Return]
      else if frame.BurnsKey() then [burn]
      else []
  }

  function LineOfCall(c: Chain, now: Timestamp, s: State, call: Call, callee: Callee): seq<Small>
    decreases callee, 1
  {
    if call.value > s.balance || s.frames.Idle? then []
    else [MakeCall] + LineOfAnswer(c, now, s.SendOut(call), callee)
  }

  function LineOfAnswer(c: Chain, now: Timestamp, s: State, callee: Callee): seq<Small>
    decreases callee, 0
  {
    match callee
    case Returns => []
    case Reverts => []
    case Then(reentry, rest) =>
      Line(c, now, s, reentry) + LineOfAnswer(c, now, Settle(s, Exec(c, now, s, reentry)), rest)
  }

  function LineOfBatch(c: Chain, now: Timestamp, s: State, batch: seq<Invocation>): seq<Small>
    decreases batch, 2
  {
    if batch == [] then [Return]
    else
      LineOfInvocation(c, now, s, batch[0])
      + match Invoke(c, now, s, batch[0])
        case None => []
        case Some(after) => LineOfBatch(c, now, after, batch[1..])
  }

  function LineOfInvocation(c: Chain, now: Timestamp, s: State, i: Invocation): seq<Small>
    decreases i, 2
  {
    LineOfCall(c, now, s, i.call, i.callee)
  }

  // The calls the contract made at one nesting depth, oldest first.
  function SentAt(log: History, depth: nat): seq<Call> {
    match log
    case Start => []
    case Snoc(before, e) =>
      if e.CalledOut? && e.depth == depth then SentAt(before, depth) + [e.call] else SentAt(before, depth)
  }

  // ---------------------------------------------------------------------------
  // Every transaction has its line
  // ---------------------------------------------------------------------------

  // A line from s to t that leaves the open calls and the calls recorded at depth d alone.
  predicate Connects(c: Chain, s: State, line: seq<Small>, t: State, d: nat) {
    Steps(c, s, line) == Some(t) && t.frames == s.frames && SentAt(t.log, d) == SentAt(s.log, d)
  }

  /** A committed transaction reaches the same state as its line, leaves no call open, and adds
      nothing to the calls recorded at the depths it was entered from. */
  lemma {:induction false} TransactionIsALine(c: Chain, now: Timestamp, s: State, tx: Tx, d: nat)
    requires d <= s.frames.Depth()
    ensures Connects(c, s, Line(c, now, s, tx), Settle(s, Exec(c, now, s, tx)), d)
    decreases tx, 0
  {
    if Exec(c, now, s, tx).Ok? {
      match tx.op {
        case Plain(op) => PlainIsALine(c, now, s, tx.sender, tx.value, op, d);
        case Execute(session, intent, target, callData, callee) =>
          var frame := EnterExecute(c, now, s, tx.value, session, intent, target, callData).value;
          var call := Call(target, tx.value, callData);
          ExecuteFrame(c, now, s, tx.value, session, intent, target, callData);
          BracketIsALine(c, now, s, OpenExecute(now, tx.value, session, intent, target, callData), frame, call, callee, d);
        case ExecuteMulticall(session, intent, batch) =>
          var frame := EnterMulticall(c, now, s, tx.value, session, intent, CallsOf(batch)).value;
          MulticallFrame(c, now, s, tx.value, session, intent, CallsOf(batch));
          BatchIsALine(c, now, s.Open(frame), intent.body.targetContract, batch, 0, d);
          StepsCons(c, s, OpenMulticall(now, tx.value, session, intent, CallsOf(batch)),
                    LineOfBatch(c, now, s.Open(frame), batch));
        case ValidateUserOp(userOp, missing, entryPointCode) =>
          UserOpFrame(c, now, s, tx.sender, userOp, missing);
          UserOpIsALine(c, now, s, CheckUserOp(c, now, s, tx.sender, userOp, missing),
                        OpenUserOp(now, tx.sender, userOp, missing), BurnUserOp(now, tx.sender, userOp, missing),
                        userOp, missing, entryPointCode, d);
      }
    }
  }

  lemma StepsCons(c: Chain, s: State, m: Small, rest: seq<Small>)
    requires Next(c, s, m).Some?
    ensures Steps(c, s, [m] + rest) == Steps(c, Next(c, s, m).value, rest)
  {
    hide Next;
    assert ([m] + rest)[1..] == rest;
  }

  lemma ExecuteFrame(c: Chain, now: Timestamp, s: State, value: Uint256, session: Signed<Session>,
                     intent: Signed<Intent>, target: Address, callData: Bytes)
    ensures var entered := EnterExecute(c, now, s, value, session, intent, target, callData);
            entered.Success? ==> entered.value.todo == [Call(target, value, callData)] && entered.value.target == target
  {
  }

  lemma MulticallFrame(c: Chain, now: Timestamp, s: State, value: Uint256, session: Signed<Session>,
                       intent: Signed<Intent>, calls: seq<Call>)
    ensures var entered := EnterMulticall(c, now, s, value, session, intent, calls);
            entered.Success? ==> entered.value.todo == calls && entered.value.target == intent.body.targetContract
  {
  }

  lemma UserOpFrame(c: Chain, now: Timestamp, s: State, sender: Address, op: PackedUserOp, missing: Uint256)
    ensures var v := CheckUserOp(c, now, s, sender, op, missing);
            v.Pass? ==> v.frame.todo == PreFund(s, missing) && v.frame.target == s.entryPoint
  {
  }

  lemma PlainIsALine(c: Chain, now: Timestamp, s: State, sender: Address, value: Uint256, op: DirectOp, d: nat)
    requires Direct(c, now, s, sender, value, op).Ok?
    ensures Connects(c, s, [Step(now, sender, value, op)], Direct(c, now, s, sender, value, op).st, d)
  {
    DirectMakesNoCall(c, now, s, sender, value, op, d);
    StepAlone(c, s, Step(now, sender, value, op), Direct(c, now, s, sender, value, op).st);
  }

  lemma StepAlone(c: Chain, s: State, m: Small, t: State)
    requires Next(c, s, m) == Some(t)
    ensures Steps(c, s, [m]) == Some(t)
  {
    hide Next;
    assert [m][0] == m;
    assert [m][1..] == [];
  }

  lemma ReturnAlone(c: Chain, s: State)
    requires s.frames.Push? && s.frames.top.todo == []
    ensures Steps(c, s, [Return]) == Some(s.Close())
  {
    assert Next(c, s, Return) == Some(s.Close());
    hide Next;
    StepAlone(c, s, Return, s.Close());
  }

  lemma DirectMakesNoCall(c: Chain, now: Timestamp, s: State, sender: Address, value: Uint256, op: DirectOp, d: nat)
    ensures var o := Direct(c, now, s, sender, value, op);
            o.Ok? ==> o.st.frames == s.frames && SentAt(o.st.log, d) == SentAt(s.log, d)
  {
    DirectShape(c, now, s, sender, value, op);
    hide Direct;
  }

  lemma {:induction false} UserOpIsALine(c: Chain, now: Timestamp, s: State, verdict: UserOpVerdict, enter: Small,
                                         burn: Small, userOp: PackedUserOp, missing: Uint256, code: Callee, d: nat)
    requires d <= s.frames.Depth()
    requires verdict.Pass? ==> verdict.frame.todo == PreFund(s, missing) && verdict.frame.target == s.entryPoint
    requires verdict.Pass? ==> Next(c, s, enter) == Some(s.Open(verdict.frame))
    requires verdict.Pass? && verdict.frame.BurnsKey() ==> Next(c, s, burn) == Some(s.BurnSoftly(verdict.frame.session))
    requires verdict.Soft? && verdict.burned.Some? ==> Next(c, s, burn) == Some(s.BurnSoftly(verdict.burned.value))
    requires ExecUserOp(c, now, s, verdict, userOp, missing, code).Ok?
    ensures Connects(c, s, LineOfUserOp(c, now, s, verdict, enter, burn, missing, code),
                     ExecUserOp(c, now, s, verdict, userOp, missing, code).st, d)
    decreases code, 4
  {
    hide Next;
    match verdict {
      case Hard(_) =>
      case Soft(None) =>
      case Soft(Some(k)) => StepAlone(c, s, burn, s.BurnSoftly(k));
      case Pass(frame) =>
        var call := Call(s.entryPoint, missing, []);
        if missing == 0 {
          EmptyBracket(c, s, enter, frame, d);
        } else if CallOut(c, now, s.Open(frame), call, code).Some? {
          BracketIsALine(c, now, s, enter, frame, call, code, d);
        } else if frame.BurnsKey() {
          StepAlone(c, s, burn, s.BurnSoftly(frame.session));
        }
    }
  }

  // A frame with no call: it opens and returns.
  lemma EmptyBracket(c: Chain, s: State, first: Small, frame: Frame, d: nat)
    requires Next(c, s, first) == Some(s.Open(frame)) && frame.todo == []
    ensures Connects(c, s, [first] + [Return], s.Open(frame).Close(), d)
  {
    hide Next;
    StepsCons(c, s, first, [Return]);
    ReturnAlone(c, s.Open(frame));
    assert SentAt(s.Open(frame).log, d) == SentAt(s.log, d);
    assert SentAt(s.Open(frame).Close().log, d) == SentAt(s.log, d);
  }

  // A frame with one call: it opens, makes the call and returns.
  lemma {:induction false} BracketIsALine(c: Chain, now: Timestamp, s: State, first: Small, frame: Frame,
                                          call: Call, callee: Callee, d: nat)
    requires Next(c, s, first) == Some(s.Open(frame)) && d <= s.frames.Depth()
    requires frame.todo == [call] && call.target == frame.target
    requires CallOut(c, now, s.Open(frame), call, callee).Some?
    ensures var after := CallOut(c, now, s.Open(frame), call, callee).value;
            && after.frames.Push?
            && Connects(c, s, [first] + LineOfCall(c, now, s.Open(frame), call, callee) + [Return], after.Close(), d)
    decreases callee, 3
  {
    hide Next;
    var line := LineOfCall(c, now, s.Open(frame), call, callee);
    FramedCallIsALine(c, now, s.Open(frame), call, callee, d);
    StepsCons(c, s, first, line + [Return]);
    assert [first] + line + [Return] == [first] + (line + [Return]);
  }

  // The only call of a frame, then its return.
  lemma {:induction false} FramedCallIsALine(c: Chain, now: Timestamp, s: State, call: Call, callee: Callee, d: nat)
    requires s.frames.Push? && s.frames.top.todo == [call] && call.target == s.frames.top.target
    requires d < s.frames.Depth()
    requires CallOut(c, now, s, call, callee).Some?
    ensures var after := CallOut(c, now, s, call, callee).value;
            && after.frames.Push? && after.Close().frames == s.frames.below
            && Steps(c, s, LineOfCall(c, now, s, call, callee) + [Return]) == Some(after.Close())
            && SentAt(after.Close().log, d) == SentAt(s.log, d)
    decreases callee, 2
  {
    CallIsALine(c, now, s, call, callee, d);
    StepsAppend(c, s, LineOfCall(c, now, s, call, callee), [Return]);
  }

  lemma {:induction false} CallIsALine(c: Chain, now: Timestamp, s: State, call: Call, callee: Callee, d: nat)
    requires s.frames.Push? && s.frames.top.todo != [] && s.frames.top.todo[0] == call
    requires call.target == s.frames.top.target && d <= s.frames.Depth()
    ensures CallOut(c, now, s, call, callee).Some? ==>
      var after := CallOut(c, now, s, call, callee).value;
      && Steps(c, s, LineOfCall(c, now, s, call, callee)) == Some(after)
      && after.frames == s.frames.DropCall()
      && SentAt(after.log, d) == if d == s.frames.Depth() then SentAt(s.log, d) + [call] else SentAt(s.log, d)
    decreases callee, 1
  {
    if CallOut(c, now, s, call, callee).Some? {
      AnswerIsALine(c, now, s.SendOut(call), callee, d);
    }
  }

  lemma {:induction false} AnswerIsALine(c: Chain, now: Timestamp, s: State, callee: Callee, d: nat)
    requires d <= s.frames.Depth()
    ensures Answer(c, now, s, callee).Some? ==>
      var after := Answer(c, now, s, callee).value;
      && Steps(c, s, LineOfAnswer(c, now, s, callee)) == Some(after)
      && after.frames == s.frames
      && SentAt(after.log, d) == SentAt(s.log, d)
    decreases callee, 0
  {
    match callee {
      case Returns =>
      case Reverts =>
      case Then(reentry, rest) =>
        var next := Settle(s, Exec(c, now, s, reentry));
        TransactionIsALine(c, now, s, reentry, d);
        AnswerIsALine(c, now, next, rest, d);
        StepsAppend(c, s, Line(c, now, s, reentry), LineOfAnswer(c, now, next, rest));
    }
  }

  lemma {:induction false} BatchIsALine(c: Chain, now: Timestamp, s: State, target: Address,
                                        batch: seq<Invocation>, index: nat, d: nat)
    requires s.frames.Push? && s.frames.top.todo == CallsOf(batch) && s.frames.top.target == target
    requires d <= s.frames.Depth()
    ensures ExecBatch(c, now, s, target, batch, index).Ok? ==>
      var after := ExecBatch(c, now, s, target, batch, index).st;
      && Steps(c, s, LineOfBatch(c, now, s, batch)) == Some(after)
      && after.frames == s.frames.below
      && SentAt(after.log, d) ==
         if d == s.frames.Depth() then SentAt(s.log, d) + CallsOf(batch) else SentAt(s.log, d)
    decreases batch, 2
  {
    hide Next, Invoke, LineOfInvocation, Steps, SentAt, Finish, Line, Exec, CallOut, Answer;
    if batch == [] {
      EmptyBatchIsALine(c, s, d);
    } else if ExecBatch(c, now, s, target, batch, index).Ok? {
      InvocationIsALine(c, now, s, batch[0], d);
      var after := Invoke(c, now, s, batch[0]).value;
      BatchIsALine(c, now, after, target, batch[1..], index + 1, d);
      StepsAppend(c, s, LineOfInvocation(c, now, s, batch[0]), LineOfBatch(c, now, after, batch[1..]));
    }
  }

  lemma EmptyBatchIsALine(c: Chain, s: State, d: nat)
    requires s.frames.Push? && s.frames.top.todo == []
    ensures var o := Finish(s, 0);
      && o.Ok? && Steps(c, s, [Return]) == Some(o.st) && o.st.frames == s.frames.below
      && SentAt(o.st.log, d) == SentAt(s.log, d)
  {
    hide Next;
    ReturnAlone(c, s);
  }

  // A batch that goes through has every call aimed at the one target.
  lemma {:induction false} BatchHitsOneTarget(c: Chain, now: Timestamp, s: State, target: Address,
                                              batch: seq<Invocation>, index: nat)
    requires ExecBatch(c, now, s, target, batch, index).Ok?
    ensures forall i :: 0 <= i < |CallsOf(batch)| ==> CallsOf(batch)[i].target == target
    decreases |batch|
  {
    hide CallOut;
    if batch != [] {
      BatchHitsOneTarget(c, now, Invoke(c, now, s, batch[0]).value, target, batch[1..], index + 1);
    }
  }

  lemma {:induction false} InvocationIsALine(c: Chain, now: Timestamp, s: State, i: Invocation, d: nat)
    requires s.frames.Push? && s.frames.top.todo != [] && s.frames.top.todo[0] == i.call
    requires i.call.target == s.frames.top.target && d <= s.frames.Depth()
    ensures Invoke(c, now, s, i).Some? ==>
      var after := Invoke(c, now, s, i).value;
      && Steps(c, s, LineOfInvocation(c, now, s, i)) == Some(after)
      && after.frames == s.frames.DropCall()
      && SentAt(after.log, d) == if d == s.frames.Depth() then SentAt(s.log, d) + [i.call] else SentAt(s.log, d)
    decreases i, 2
  {
    CallIsALine(c, now, s, i.call, i.callee, d);
  }

  // ---------------------------------------------------------------------------
  // Runs
  // ---------------------------------------------------------------------------

  function RunLine(c: Chain, s: State, blocks: seq<Block>): seq<Small>
    decreases |blocks|
  {
    if blocks == [] then []
    else
      Line(c, blocks[0].now, s, blocks[0].tx)
      + RunLine(c, Settle(s, Exec(c, blocks[0].now, s, blocks[0].tx)), blocks[1..])
  }

  // Every run of the contract is one line of small steps, with no call left open between blocks.
  lemma {:induction false} RunIsALine(c: Chain, s: State, blocks: seq<Block>)
    ensures Steps(c, s, RunLine(c, s, blocks)) == Some(Run(c, s, blocks))
    ensures Run(c, s, blocks).frames == s.frames
    decreases |blocks|
  {
    if blocks != [] {
      var next := Settle(s, Exec(c, blocks[0].now, s, blocks[0].tx));
      TransactionIsALine(c, blocks[0].now, s, blocks[0].tx, 0);
      RunIsALine(c, next, blocks[1..]);
      StepsAppend(c, s, Line(c, blocks[0].now, s, blocks[0].tx), RunLine(c, next, blocks[1..]));
    }
  }
}
