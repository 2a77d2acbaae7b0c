/** Who may cancel, and what takes an identity out of its state, over whole runs. */
module Permissions {
  import opened Base
  import opened Storage
  import opened IdentityStore
  import opened Execution
  import opened Linear
  import opened RecoverySafety
  import opened Configuration

  // ---------------------------------------------------------------------------
  // Callers
  // ---------------------------------------------------------------------------

  // Only a root cancels its recovery; only it and the owner cancel its sessions.
  predicate Permitted(m: Small, owner: Address) {
    m.Step? ==>
      && (m.op.CancelRecovery? ==> m.sender == m.op.oldRoot)
      && (m.op.CancelAllSessions? ==> m.sender == m.op.root || m.sender == owner)
      && (OwnerOnly(m.op) ==> m.sender == owner)
  }

  lemma StepIsPermitted(c: Chain, s: State, m: Small)
    requires Next(c, s, m).Some?
    ensures Permitted(m, s.owner) && Next(c, s, m).value.owner == s.owner
  {
    StepConfigures(c, s, m, Key(0), 0);
    hide EnterExecute, EnterMulticall, CheckUserOp, Recover, ClearFlags, OwnerStep;
    hide ValidateIntentStep, ValidateDelegatedStep, InitiateRecoveryStep, SupportRecoveryStep, FinalizeRecoveryStep;
  }

  lemma {:induction false} LineIsPermitted(c: Chain, s: State, line: seq<Small>)
    requires Steps(c, s, line).Some?
    ensures forall m :: m in line ==> Permitted(m, s.owner)
    decreases |line|
  {
    if line != [] {
      StepIsPermitted(c, s, line[0]);
      hide Next, Permitted;
      LineIsPermitted(c, Next(c, s, line[0]).value, line[1..]);
      assert line == [line[0]] + line[1..];
    }
  }

  /** In every run, re-entrant calls included, every committed cancelRecovery comes from the root whose recovery it
      cancels, every committed cancelAllSessions from the root or the owner, and every committed call of an
      owner function from the owner. */
  lemma OnlyThePermittedCall(c: Chain, owner: Address, blocks: seq<Block>)
    ensures forall m :: m in RunLine(c, Deployed(owner), blocks) ==> Permitted(m, owner)
  {
    hide Next, Permitted;
    RunIsALine(c, Deployed(owner), blocks);
    LineIsPermitted(c, Deployed(owner), RunLine(c, Deployed(owner), blocks));
  }

  // ---------------------------------------------------------------------------
  // Ways out of recovery and frost
  // ---------------------------------------------------------------------------

  // A cancel or a finalize of r, or a finalize that installs r.
  predicate EndsRecovery(s: State, m: Small, r: Address) {
    m.Step? && (|| m.op == CancelRecovery(r) || m.op == FinalizeRecovery(r)
                || (m.op.FinalizeRecovery? && s.Pending(m.op.oldRoot) == r))
  }

  /** From RecoveryPending to Active there is no step but a cancel or finalize of r or a finalize that installs r: an
      unfreeze does not lead there. From Frozen there is, besides these, the unfreeze; and no step but a committed
      initiateRecovery of r leads to RecoveryPending, none but a freeze of r to Frozen. */
  lemma StateChangesByItsSteps(c: Chain, s: State, m: Small, r: Address)
    requires Next(c, s, m).Some?
    ensures var t := Next(c, s, m).value;
      && (s.Status(r) == RecoveryPending && t.Status(r) == Active ==> EndsRecovery(s, m, r))
      && (s.Status(r) == Frozen && t.Status(r) == Active ==>
            EndsRecovery(s, m, r) || (m.Step? && m.op == UnfreezeIdentity(r)))
      && (s.Status(r) != RecoveryPending && t.Status(r) == RecoveryPending ==>
            m.Step? && m.op.InitiateRecovery? && m.op.oldRoot == r)
      && (s.Status(r) != Frozen && t.Status(r) == Frozen ==> m.Step? && m.op == FreezeIdentity(r))
  {
    hide Direct, EnterExecute, EnterMulticall, CheckUserOp;
    if m.Step? {
      CallChangesState(c, m.now, s, m.sender, m.value, m.op, r);
    } else {
      var e := CallStepEffect(c, s, m);
      hide Next;
      EffectsLeaveStatus(s, e);
    }
  }

  lemma CallChangesState(c: Chain, now: Timestamp, s: State, sender: Address, value: Uint256, op: DirectOp, r: Address)
    requires Direct(c, now, s, sender, value, op).Ok?
    ensures var t := Direct(c, now, s, sender, value, op).st;
      t.Status(r) == s.Status(r)
      || match t.Status(r)
         case Active => EndsRecovery(s, Step(now, sender, value, op), r)
                        || (op == UnfreezeIdentity(r) && s.Status(r) == Frozen)
         case RecoveryPending => op.InitiateRecovery? && op.oldRoot == r
         case Frozen => op == FreezeIdentity(r)
  {
    hide ValidateIntentStep, ValidateDelegatedStep, Recover, ClearFlags, OwnerStep, FinalizeRecoveryStep;
    ValidationLeavesStatus(c, now, s, value, op);
    if OwnerOnly(op) {
      OwnerChangesState(s, sender, op, r);
    } else if op.FinalizeRecovery? {
      FinalizeChangesState(now, s, op.oldRoot, r);
    }
  }

  lemma OwnerChangesState(s: State, sender: Address, op: DirectOp, r: Address)
    requires OwnerOnly(op) && OwnerStep(s, sender, op).Ok?
    ensures var t := OwnerStep(s, sender, op).st;
      || t.Status(r) == s.Status(r)
      || (t.Status(r) == Active && op == UnfreezeIdentity(r) && s.Status(r) == Frozen)
      || (t.Status(r) == Frozen && op == FreezeIdentity(r))
  {
  }

  lemma FinalizeChangesState(now: Timestamp, s: State, oldRoot: Address, r: Address)
    requires FinalizeRecoveryStep(now, s, oldRoot).Ok?
    ensures var t := FinalizeRecoveryStep(now, s, oldRoot).st;
      t.Status(r) == s.Status(r) || (t.Status(r) == Active && (oldRoot == r || s.Pending(oldRoot) == r))
  {
    hide ClearFlags;
  }

  // r was frozen, with no unfreeze, cancel, finalize or start of a recovery of r, or installation of r, since.
  predicate FrozenIn(log: History, r: Address) {
    match log
    case Start => false
    case Snoc(before, e) =>
      if e.IdentityFrozen? && e.root == r then true
      else if (e.IdentityUnfrozen? || e.Cancelled? || e.Finalized?) && e.root == r then false
      else if e.Finalized? && e.newRoot == r then false
      else if e.Approved? && e.root == r && Round(before, r) == [] then false
      else FrozenIn(before, r)
  }

  // Every unfreeze of r in the history found r frozen.
  predicate UnfreezesFrozen(log: History, r: Address) {
    match log
    case Start => true
    case Snoc(before, e) =>
      UnfreezesFrozen(before, r) && (e.IdentityUnfrozen? && e.root == r ==> FrozenIn(before, r))
  }

  lemma {:induction false} FrozenInHistory(log: History, r: Address)
    ensures StatusIn(log, r) == Frozen <==> FrozenIn(log, r)
  {
    if log.Snoc? {
      FrozenInHistory(log.before, r);
    }
  }

  predicate NoUnfreeze(s: State, t: State) {
    t.log == s.log || (t.log.Snoc? && t.log.before == s.log && !t.log.last.IdentityUnfrozen?)
  }

  lemma StepUnfreezesFrozen(c: Chain, s: State, m: Small, r: Address)
    requires StatusKept(s, r) && UnfreezesFrozen(s.log, r) && Next(c, s, m).Some?
    ensures UnfreezesFrozen(Next(c, s, m).value.log, r)
  {
    FrozenInHistory(s.log, r);
    if m.Step? && m.op.UnfreezeIdentity? {
      hide FrozenIn, StatusIn;
      hide ValidateIntentStep, ValidateDelegatedStep;
      hide InitiateRecoveryStep, SupportRecoveryStep, CancelRecoveryStep, FinalizeRecoveryStep;
    } else {
      OtherStepsDoNotUnfreeze(c, s, m);
      hide Next;
    }
  }

  lemma OtherStepsDoNotUnfreeze(c: Chain, s: State, m: Small)
    requires Next(c, s, m).Some? && !(m.Step? && m.op.UnfreezeIdentity?)
    ensures NoUnfreeze(s, Next(c, s, m).value)
  {
    hide Direct, EnterExecute, EnterMulticall, CheckUserOp;
    if m.Step? {
      OtherCallsDoNotUnfreeze(c, m.now, s, m.sender, m.value, m.op);
    } else {
      var e := CallStepEffect(c, s, m);
      hide Next;
      EffectsLeaveStatus(s, e);
    }
  }

  lemma OtherCallsDoNotUnfreeze(c: Chain, now: Timestamp, s: State, sender: Address, value: Uint256, op: DirectOp)
    requires !op.UnfreezeIdentity?
    ensures Direct(c, now, s, sender, value, op).Ok? ==> NoUnfreeze(s, Direct(c, now, s, sender, value, op).st)
  {
    ValidationLeavesStatus(c, now, s, value, op);
    hide ValidateIntentStep, ValidateDelegatedStep, Recover, ClearFlags;
  }

  lemma {:induction false} LineUnfreezesFrozen(c: Chain, s: State, line: seq<Small>, r: Address)
    requires RecoveryInvariant(c, s, r) && UnfreezesFrozen(s.log, r) && Steps(c, s, line).Some?
    ensures UnfreezesFrozen(Steps(c, s, line).value.log, r)
    decreases |line|
  {
    if line != [] {
      StepUnfreezesFrozen(c, s, line[0], r);
      var next := Next(c, s, line[0]).value;
      OneStepLine(c, s, line[0]);
      LineKeepsRecovery(c, s, [line[0]], r);
      hide Next, RecoveryInvariant, UnfreezesFrozen;
      LineUnfreezesFrozen(c, next, line[1..], r);
    }
  }

  lemma OneStepLine(c: Chain, s: State, m: Small)
    requires Next(c, s, m).Some?
    ensures Steps(c, s, [m]) == Next(c, s, m)
  {
    StepAlone(c, s, m, Next(c, s, m).value);
  }

  /** In every run, every unfreeze of r followed a freeze of r with no cancel, finalize or start of a recovery of r in
      between: unfreezeIdentity never ended anything but a freeze. */
  lemma UnfreezesEndFreezes(c: Chain, owner: Address, blocks: seq<Block>, r: Address)
    ensures UnfreezesFrozen(Run(c, Deployed(owner), blocks).log, r)
  {
    DeployedIsSafe(c, owner, r);
    hide Run, RecoveryInvariant, Steps;
    RunIsALine(c, Deployed(owner), blocks);
    LineUnfreezesFrozen(c, Deployed(owner), RunLine(c, Deployed(owner), blocks), r);
  }

  // ---------------------------------------------------------------------------
  // Epochs
  // ---------------------------------------------------------------------------

  function Cancellations(log: History, r: Address): nat {
    match log
    case Start => 0
    case Snoc(before, e) => Cancellations(before, r) + if e.SessionsCancelled? && e.root == r then 1 else 0
  }

  predicate EpochsUntouched(s: State, t: State) {
    && t.sessionEpoch == s.sessionEpoch
    && (t.log == s.log || (t.log.Snoc? && t.log.before == s.log && !t.log.last.SessionsCancelled?))
  }

  lemma OtherCallsLeaveEpochs(c: Chain, now: Timestamp, s: State, sender: Address, value: Uint256, op: DirectOp)
    requires !op.CancelAllSessions?
    ensures Direct(c, now, s, sender, value, op).Ok? ==> EpochsUntouched(s, Direct(c, now, s, sender, value, op).st)
  {
    hide Recover, ClearFlags, OwnerStep, FinalizeRecoveryStep;
    if OwnerOnly(op) {
      OwnerLeavesEpochs(s, sender, op);
    } else if op.FinalizeRecovery? {
      FinalizeLeavesEpochs(now, s, op.oldRoot);
    }
  }

  lemma OwnerLeavesEpochs(s: State, sender: Address, op: DirectOp)
    requires OwnerOnly(op)
    ensures OwnerStep(s, sender, op).Ok? ==> EpochsUntouched(s, OwnerStep(s, sender, op).st)
  {
  }

  lemma FinalizeLeavesEpochs(now: Timestamp, s: State, oldRoot: Address)
    ensures FinalizeRecoveryStep(now, s, oldRoot).Ok? ==> EpochsUntouched(s, FinalizeRecoveryStep(now, s, oldRoot).st)
  {
    hide ClearFlags;
  }

  lemma EffectsLeaveEpochs(s: State, e: Effect)
    requires Enabled(s, e)
    ensures EpochsUntouched(s, Affect(s, e))
  {
  }

  lemma StepCountsEpochs(c: Chain, s: State, m: Small, r: Address)
    requires s.Epoch(r) == Cancellations(s.log, r) && Next(c, s, m).Some?
    ensures Next(c, s, m).value.Epoch(r) == Cancellations(Next(c, s, m).value.log, r)
  {
    hide EnterExecute, EnterMulticall, CheckUserOp;
    if !m.Step? {
      hide Direct;
      var e := CallStepEffect(c, s, m);
      hide Next;
      EffectsLeaveEpochs(s, e);
    } else if m.op.CancelAllSessions? {
      hide OwnerStep, ValidateIntentStep, ValidateDelegatedStep;
      hide InitiateRecoveryStep, SupportRecoveryStep, CancelRecoveryStep, FinalizeRecoveryStep;
    } else {
      OtherCallsLeaveEpochs(c, m.now, s, m.sender, m.value, m.op);
      hide Direct;
    }
  }

  lemma {:induction false} LineCountsEpochs(c: Chain, s: State, line: seq<Small>, r: Address)
    requires s.Epoch(r) == Cancellations(s.log, r) && Steps(c, s, line).Some?
    ensures Steps(c, s, line).value.Epoch(r) == Cancellations(Steps(c, s, line).value.log, r)
    decreases |line|
  {
    if line != [] {
      StepCountsEpochs(c, s, line[0], r);
      hide Next, Cancellations;
      LineCountsEpochs(c, Next(c, s, line[0]).value, line[1..], r);
    }
  }

  // In every run the epoch of a root is the number of its committed cancelAllSessions: nothing else moves it.
  lemma EpochsCountCancellations(c: Chain, owner: Address, blocks: seq<Block>, r: Address)
    ensures var s := Run(c, Deployed(owner), blocks); s.Epoch(r) == Cancellations(s.log, r)
  {
    RunIsALine(c, Deployed(owner), blocks);
    LineCountsEpochs(c, Deployed(owner), RunLine(c, Deployed(owner), blocks), r);
  }
}
