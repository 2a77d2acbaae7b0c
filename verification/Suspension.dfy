/** Identities that may not act: during a recovery or a freeze, and under an outdated epoch. */
module Suspension {
  import opened Base
  import opened TypedData
  import opened Storage
  import opened IdentityStore
  import opened Execution
  import opened Linear
  import opened RecoverySafety
  import opened Authority

  // ---------------------------------------------------------------------------
  // From initiateRecovery until the identity is released
  // ---------------------------------------------------------------------------

  // A cancel or finalize of r, an unfreeze of r, or a finalize that installs r.
  predicate Releases(s: State, m: Small, r: Address) {
    m.Step? && (|| m.op == CancelRecovery(r) || m.op == FinalizeRecovery(r) || m.op == UnfreezeIdentity(r)
                || (m.op.FinalizeRecovery? && s.Pending(m.op.oldRoot) == r))
  }

  predicate NeverReleased(c: Chain, s: State, line: seq<Small>, r: Address)
    decreases |line|
  {
    line == []
    || (!Releases(s, line[0], r)
        && (Next(c, s, line[0]).Some? ==> NeverReleased(c, Next(c, s, line[0]).value, line[1..], r)))
  }

  // The step starts an action under parent r, or burns a key of r; managing the recovery of r is neither.
  predicate Begins(c: Chain, m: Small, r: Address) {
    match m
    case OpenExecute(_, _, session, _, _, _) => session.body.parent == r
    case OpenMulticall(_, _, session, _, _) => session.body.parent == r
    case OpenUserOp(_, _, op, _) =>
      op.chain.Some? && op.chain.value.0.body.parent == r && !SelectsRecovery(c, op.callData)
    case BurnUserOp(_, _, op, _) => op.chain.Some? && op.chain.value.0.body.parent == r
    case _ => false
  }

  predicate IsFrameOf(f: Frame, r: Address) {
    f.parent == r && f.BurnsKey()
  }

  // An execute, multicall or session operation of r is still open.
  predicate OpenFor(frames: Frames, r: Address) {
    frames.Push? && (IsFrameOf(frames.top, r) || OpenFor(frames.below, r))
  }

  // The step goes on with an open action of r: it makes one of its calls, or completes it.
  predicate GoesOn(s: State, m: Small, r: Address) {
    (m.MakeCall? || m.Return?) && s.frames.Push? && IsFrameOf(s.frames.top, r)
  }

  // No step of the line does anything for r: nothing begins, calls out or completes.
  predicate Quiet(c: Chain, s: State, line: seq<Small>, r: Address)
    decreases |line|
  {
    line == []
    || (!Begins(c, line[0], r) && !GoesOn(s, line[0], r)
        && (Next(c, s, line[0]).Some? ==> Quiet(c, Next(c, s, line[0]).value, line[1..], r)))
  }

  lemma SuspendedStepBeginsNothing(c: Chain, s: State, m: Small, r: Address)
    requires s.Status(r) != Active && Next(c, s, m).Some?
    ensures !Begins(c, m, r)
  {
    hide Recover, Direct;
  }

  // Whatever opens is the action of an active identity, or recovery management.
  lemma ExecuteNeedsActive(c: Chain, now: Timestamp, s: State, value: Uint256, session: Signed<Session>,
                           intent: Signed<Intent>, target: Address, callData: Bytes)
    ensures var entered := EnterExecute(c, now, s, value, session, intent, target, callData);
            entered.Success? ==> s.Status(entered.value.parent) == Active
  {
    hide Recover;
  }

  lemma MulticallNeedsActive(c: Chain, now: Timestamp, s: State, value: Uint256, session: Signed<Session>,
                             intent: Signed<Intent>, calls: seq<Call>)
    ensures var entered := EnterMulticall(c, now, s, value, session, intent, calls);
            entered.Success? ==> s.Status(entered.value.parent) == Active
  {
    hide Recover;
  }

  lemma UserOpNeedsActive(c: Chain, now: Timestamp, s: State, sender: Address, op: PackedUserOp, missing: Uint256)
    ensures var v := CheckUserOp(c, now, s, sender, op, missing);
            v.Pass? && v.frame.BurnsKey() ==> s.Status(v.frame.parent) == Active
  {
    hide Recover, IsRecoverySelector;
  }

  predicate Opens(m: Small) {
    m.OpenExecute? || m.OpenMulticall? || m.OpenUserOp?
  }

  lemma BurnLeavesFrames(c: Chain, now: Timestamp, s: State, sender: Address, op: PackedUserOp, missing: Uint256)
    ensures var o := Next(c, s, BurnUserOp(now, sender, op, missing)); o.Some? ==> o.value.frames == s.frames
  {
    hide CheckUserOp;
    var v := CheckUserOp(c, now, s, sender, op, missing);
    if v.Soft? && v.burned.Some? {
      assert Next(c, s, BurnUserOp(now, sender, op, missing)) == Some(s.BurnSoftly(v.burned.value));
    } else if v.Pass? && v.frame.BurnsKey() {
      assert Next(c, s, BurnUserOp(now, sender, op, missing)) == Some(s.BurnSoftly(v.frame.session));
    }
  }

  // How one step moves the stack of open calls.
  lemma StepMovesFrames(c: Chain, s: State, m: Small) returns (f: Option<Frame>)
    requires Next(c, s, m).Some?
    ensures f.Some? <==> Opens(m)
    ensures f.Some? && f.value.BurnsKey() ==> s.Status(f.value.parent) == Active
    ensures (m.MakeCall? || m.Return?) ==> s.frames.Push?
    ensures Next(c, s, m).value.frames ==
      if f.Some? then Push(f.value, s.frames)
      else if m.MakeCall? then s.frames.DropCall()
      else if m.Return? then s.frames.below
      else s.frames
  {
    hide Direct, EnterExecute, EnterMulticall, CheckUserOp;
    match m {
      case Step(now, sender, value, op) =>
        DirectShape(c, now, s, sender, value, op);
        return None;
      case OpenExecute(now, value, session, intent, target, callData) =>
        ExecuteNeedsActive(c, now, s, value, session, intent, target, callData);
        return Some(EnterExecute(c, now, s, value, session, intent, target, callData).value);
      case OpenMulticall(now, value, session, intent, calls) =>
        MulticallNeedsActive(c, now, s, value, session, intent, calls);
        return Some(EnterMulticall(c, now, s, value, session, intent, calls).value);
      case OpenUserOp(now, sender, userOp, missing) =>
        UserOpNeedsActive(c, now, s, sender, userOp, missing);
        return Some(CheckUserOp(c, now, s, sender, userOp, missing).frame);
      case BurnUserOp(now, sender, userOp, missing) =>
        BurnLeavesFrames(c, now, s, sender, userOp, missing);
        return None;
      case MakeCall => return None;
      case Return => return None;
    }
  }

  lemma SuspendedStepKeepsOpenFrames(c: Chain, s: State, m: Small, r: Address)
    requires s.Status(r) != Active && Next(c, s, m).Some?
    ensures !GoesOn(s, m, r) ==> (OpenFor(Next(c, s, m).value.frames, r) <==> OpenFor(s.frames, r))
    ensures OpenFor(Next(c, s, m).value.frames, r) ==> OpenFor(s.frames, r)
  {
    var f := StepMovesFrames(c, s, m);
    hide Next;
  }

  lemma SuspendedStepKeepsSuspension(c: Chain, s: State, m: Small, r: Address)
    requires s.Status(r) != Active && Next(c, s, m).Some? && !Releases(s, m, r)
    ensures Next(c, s, m).value.Status(r) != Active
  {
    hide Direct, EnterExecute, EnterMulticall, CheckUserOp;
    if m.Step? {
      SuspendedCallKeepsSuspension(c, m.now, s, m.sender, m.value, m.op, r);
    } else {
      var e := CallStepEffect(c, s, m);
      hide Next;
      EffectsLeaveStatus(s, e);
    }
  }

  lemma SuspendedCallKeepsSuspension(c: Chain, now: Timestamp, s: State, sender: Address, value: Uint256,
                                     op: DirectOp, r: Address)
    requires s.Status(r) != Active && !Releases(s, Step(now, sender, value, op), r)
    ensures Direct(c, now, s, sender, value, op).Ok? ==> Direct(c, now, s, sender, value, op).st.Status(r) != Active
  {
    if op.ValidateIntent? || op.ValidateDelegatedIntent? {
      ValidationLeavesStatus(c, now, s, value, op);
      hide ValidateIntentStep, ValidateDelegatedStep;
    } else {
      hide ValidateIntentStep, ValidateDelegatedStep, Recover, ClearFlags;
    }
  }

  /** While r is suspended and until a releasing step, no action of r begins, however the calls nest. If
      none was open when the suspension began, nothing is done for r at all; if one was open then and
      none is at the end, it did go on. */
  lemma {:induction false} SuspensionStopsLines(c: Chain, s: State, line: seq<Small>, r: Address)
    requires s.Status(r) != Active && Steps(c, s, line).Some? && NeverReleased(c, s, line, r)
    ensures forall m :: m in line ==> !Begins(c, m, r)
    ensures var t := Steps(c, s, line).value;
      && t.Status(r) != Active
      && (!OpenFor(s.frames, r) ==> Quiet(c, s, line, r) && !OpenFor(t.frames, r))
      && (OpenFor(s.frames, r) && !OpenFor(t.frames, r) ==> !Quiet(c, s, line, r))
    decreases |line|
  {
    if line != [] {
      SuspendedStepBeginsNothing(c, s, line[0], r);
      SuspendedStepKeepsOpenFrames(c, s, line[0], r);
      SuspendedStepKeepsSuspension(c, s, line[0], r);
      assert GoesOn(s, line[0], r) ==> OpenFor(s.frames, r);
      hide Next, Releases, Begins, OpenFor, GoesOn;
      SuspensionStopsLines(c, Next(c, s, line[0]).value, line[1..], r);
      assert line == [line[0]] + line[1..];
    }
  }

  // A committed prefix of a line, and what follows it.
  lemma LineSplits(c: Chain, s: State, before: seq<Small>, after: seq<Small>)
    requires Steps(c, s, before + after).Some?
    ensures Steps(c, s, before).Some? && Steps(c, s, before + after) == Steps(c, Steps(c, s, before).value, after)
    decreases |before|
  {
    hide Next;
    if before == [] {
      assert before + after == after;
    } else {
      assert (before + after)[0] == before[0] && (before + after)[1..] == before[1..] + after;
      LineSplits(c, Next(c, s, before[0]).value, before[1..], after);
    }
  }

  /** Wherever in a run r becomes suspended, between transactions or deep inside one: until r is released
      no action of r begins, and something is still done for r if and only if an action of r was open
      at that moment. */
  lemma SuspensionStopsRuns(c: Chain, start: State, blocks: seq<Block>, before: seq<Small>, after: seq<Small>, r: Address)
    requires start.frames.Idle? && RunLine(c, start, blocks) == before + after
    requires Steps(c, start, before).Some? && Steps(c, start, before).value.Status(r) != Active
    requires NeverReleased(c, Steps(c, start, before).value, after, r)
    ensures var begun := Steps(c, start, before).value;
      && (forall m :: m in after ==> !Begins(c, m, r))
      && (Quiet(c, begun, after, r) <==> !OpenFor(begun.frames, r))
      && Run(c, start, blocks).Status(r) != Active
  {
    hide Next, NeverReleased, Begins;
    RunIsALine(c, start, blocks);
    LineSplits(c, start, before, after);
    SuspensionStopsLines(c, Steps(c, start, before).value, after, r);
  }

  /** The same from a committed initiateRecovery of r, whether it was a transaction of its own or a
      re-entrant call: a later action of r commits exactly when one was open around it. */
  lemma RecoverySuspendsRuns(c: Chain, start: State, blocks: seq<Block>, before: seq<Small>, initiate: Small,
                             after: seq<Small>, r: Address)
    requires start.frames.Idle? && RunLine(c, start, blocks) == before + [initiate] + after
    requires initiate.Step? && initiate.op.InitiateRecovery? && initiate.op.oldRoot == r
    requires Steps(c, start, before).Some? && Steps(c, start, before + [initiate]).Some?
             && NeverReleased(c, Steps(c, start, before + [initiate]).value, after, r)
    ensures var begun := Steps(c, start, before + [initiate]).value;
      && (forall m :: m in after ==> !Begins(c, m, r))
      && (Quiet(c, begun, after, r) <==> !OpenFor(Steps(c, start, before).value.frames, r))
      && Run(c, start, blocks).Status(r) != Active
  {
    LineSplits(c, start, before, [initiate]);
    var s := Steps(c, start, before).value;
    StepAlone(c, s, initiate, Next(c, s, initiate).value);
    InitiateSuspends(c, s, initiate, r);
    hide Next, NeverReleased, Begins;
    SuspensionStopsRuns(c, start, blocks, before + [initiate], after, r);
  }

  lemma InitiateSuspends(c: Chain, s: State, m: Small, r: Address)
    requires m.Step? && m.op.InitiateRecovery? && m.op.oldRoot == r && Next(c, s, m).Some?
    ensures Next(c, s, m).value.Status(r) == RecoveryPending && Next(c, s, m).value.frames == s.frames
  {
    hide Recover;
  }

  // ---------------------------------------------------------------------------
  // Active with a recovery pending
  // ---------------------------------------------------------------------------

  /** Since the pending round of r began, r was unfrozen or installed by a finalize of another root,
      and was not frozen after that. */
  predicate ReleasedEarly(log: History, r: Address) {
    match log
    case Start => false
    case Snoc(before, e) =>
      if e.IdentityUnfrozen? && e.root == r then true
      else if e.Finalized? && e.newRoot == r then true
      else if e.IdentityFrozen? && e.root == r then false
      else if e.Approved? && e.root == r && Round(before, r) == [] then false
      else ReleasedEarly(before, r)
  }

  lemma {:induction false} ReleaseInHistory(log: History, r: Address)
    requires Round(log, r) != []
    ensures StatusIn(log, r) == Active <==> ReleasedEarly(log, r)
  {
    if Round(log.before, r) != [] {
      ReleaseInHistory(log.before, r);
    }
  }

  /** In every run, a root with a recovery pending is Active, and so may execute, exactly when it was
      released early: a pending recovery alone does not suspend it. */
  lemma PendingAndActive(c: Chain, owner: Address, blocks: seq<Block>, r: Address)
    ensures var s := Run(c, Deployed(owner), blocks);
            s.Pending(r) != 0 ==> (s.Status(r) == Active <==> ReleasedEarly(s.log, r))
  {
    var s := Run(c, Deployed(owner), blocks);
    RunsKeepRecovery(c, owner, blocks, r);
    hide Run;
    if s.Pending(r) != 0 {
      ReleaseInHistory(s.log, r);
    }
  }

  // ---------------------------------------------------------------------------
  // Epochs
  // ---------------------------------------------------------------------------

  // An action for r, checked against its session chain, under an intent of epoch at most e.
  predicate UsesEpoch(c: Chain, s: State, m: Small, r: Address, e: nat) {
    match m
    case OpenExecute(_, _, session, intent, _, _) => session.body.parent == r && intent.body.sessionEpoch <= e
    case OpenMulticall(_, _, session, intent, _) => session.body.parent == r && intent.body.sessionEpoch <= e
    case OpenUserOp(_, _, op, _) =>
      && op.chain.Some? && op.chain.value.0.body.parent == r && op.chain.value.1.body.sessionEpoch <= e
      && s.Status(r) != RecoveryPending
    case Step(_, _, _, op) =>
      op.ValidateIntent? && op.intent.body.sessionEpoch <= e
      && Recover(c, IntentMessage(op.intent.body), op.intent.sig) == Success(r)
    case _ => false
  }

  predicate NeverUsesEpoch(c: Chain, s: State, line: seq<Small>, r: Address, e: nat)
    decreases |line|
  {
    line == []
    || (!UsesEpoch(c, s, line[0], r, e)
        && (Next(c, s, line[0]).Some? ==> NeverUsesEpoch(c, Next(c, s, line[0]).value, line[1..], r, e)))
  }

  lemma OldEpochIsRejected(c: Chain, s: State, m: Small, r: Address, e: nat)
    requires s.Epoch(r) > e && Next(c, s, m).Some?
    ensures !UsesEpoch(c, s, m, r, e)
  {
    if m.Step? {
      hide ValidateDelegatedStep, InitiateRecoveryStep, SupportRecoveryStep, CancelRecoveryStep, FinalizeRecoveryStep;
      hide Recover, EnterExecute, EnterMulticall, CheckUserOp;
    } else {
      hide Recover, Direct;
    }
  }

  lemma EpochNeverFalls(c: Chain, s: State, m: Small, r: Address)
    requires Next(c, s, m).Some?
    ensures Next(c, s, m).value.Epoch(r) >= s.Epoch(r)
  {
    hide Direct, EnterExecute, EnterMulticall, CheckUserOp;
    if m.Step? {
      CallNeverLowersEpoch(c, m.now, s, m.sender, m.value, m.op, r);
    } else {
      var e := CallStepEffect(c, s, m);
      hide Next;
      EffectsLeaveEpochs(s, e);
    }
  }

  lemma EffectsLeaveEpochs(s: State, e: Effect)
    requires Enabled(s, e)
    ensures Affect(s, e).sessionEpoch == s.sessionEpoch
  {
  }

  lemma CallNeverLowersEpoch(c: Chain, now: Timestamp, s: State, sender: Address, value: Uint256, op: DirectOp, r: Address)
    ensures Direct(c, now, s, sender, value, op).Ok? ==>
            Direct(c, now, s, sender, value, op).st.Epoch(r) >= s.Epoch(r)
  {
    hide Recover, ClearFlags;
  }

  /** Once the epoch of r has passed e, no continuation ever again accepts an intent of epoch e or
      less for r: not through execute, executeMulticall, validateUserOp's session chain or validateIntent. */
  lemma {:induction false} PassedEpochsAreDead(c: Chain, s: State, line: seq<Small>, r: Address, e: nat)
    requires s.Epoch(r) > e && Steps(c, s, line).Some?
    ensures NeverUsesEpoch(c, s, line, r, e)
    ensures Steps(c, s, line).value.Epoch(r) >= s.Epoch(r)
    decreases |line|
  {
    if line != [] {
      OldEpochIsRejected(c, s, line[0], r, e);
      EpochNeverFalls(c, s, line[0], r);
      hide Next, UsesEpoch;
      PassedEpochsAreDead(c, Next(c, s, line[0]).value, line[1..], r, e);
    }
  }

  // cancelAllSessions passes the current epoch.
  lemma CancelAllSessionsIsFinal(c: Chain, now: Timestamp, s: State, sender: Address, r: Address, blocks: seq<Block>)
    requires Direct(c, now, s, sender, 0, CancelAllSessions(r)).Ok?
    ensures var cut := Direct(c, now, s, sender, 0, CancelAllSessions(r)).st;
            NeverUsesEpoch(c, cut, RunLine(c, cut, blocks), r, s.Epoch(r))
  {
    var cut := Direct(c, now, s, sender, 0, CancelAllSessions(r)).st;
    assert cut.Epoch(r) == s.Epoch(r) + 1;
    hide Direct, Next;
    RunIsALine(c, cut, blocks);
    PassedEpochsAreDead(c, cut, RunLine(c, cut, blocks), r, s.Epoch(r));
  }

  /** validateDelegatedIntent is outside that: whether it accepts, and what it does, is the same whatever
      the epochs are. */
  lemma DelegatedIntentsIgnoreEpochs(c: Chain, now: Timestamp, s: State, value: Uint256, d: Signed<Delegation>,
                                     p: Signed<Intent>, epochs: map<Address, Uint256>)
    ensures var here := ValidateDelegatedStep(c, now, s, value, d, p);
      var there := ValidateDelegatedStep(c, now, s.(sessionEpoch := epochs), value, d, p);
      there == if here.Ok? then Ok(here.st.(sessionEpoch := epochs), here.data) else here
  {
    hide Recover;
  }
}
