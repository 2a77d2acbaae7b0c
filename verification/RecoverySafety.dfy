/** Social recovery over whole runs: what every reachable state keeps about each root, and what
    every finalization in the history was preceded by. */
module RecoverySafety {
  import opened Base
  import opened TypedData
  import opened Storage
  import opened IdentityStore
  import opened Execution
  import opened Linear

  // The approvals of root r since its last cancel or finalize.
  function Round(log: History, r: Address): seq<Approval> {
    match log
    case Start => []
    case Snoc(before, e) =>
      if e.Approved? && e.root == r then Round(before, r) + [e.approval]
      else if EndsRound(e, r) then []
      else Round(before, r)
  }

  predicate EndsRound(e: Event, r: Address) {
    (e.Cancelled? || e.Finalized?) && e.root == r
  }

  function Finalizations(log: History, r: Address): nat {
    match log
    case Start => 0
    case Snoc(before, e) => Finalizations(before, r) + if e.Finalized? && e.root == r then 1 else 0
  }

  // The approver was a guardian when it approved, and signed exactly this request on this chain.
  predicate Genuine(c: Chain, r: Address, a: Approval) {
    && a.guardian in a.guardians
    && a.at > 0
    && Recover(c, RecoveryMessage(Recovery(r, a.newRoot, c.ShortId(), a.nonce)), a.sig) == Success(a.guardian)
  }

  predicate DistinctGuardians(round: seq<Approval>) {
    forall i, j :: 0 <= i < j < |round| ==> round[i].guardian != round[j].guardian
  }

  predicate GenuineRound(c: Chain, r: Address, round: seq<Approval>, newRoot: Address, nonce: Uint64) {
    forall i :: 0 <= i < |round| ==>
      Genuine(c, r, round[i]) && round[i].newRoot == newRoot && round[i].nonce == nonce
  }

  /** Storage agrees with the round in the history: the counter is its size, the timelock runs from
      its second approval, and all its approvers are flagged. */
  predicate RoundKept(c: Chain, s: State, r: Address) {
    var round := Round(s.log, r);
    && (s.Pending(r) == 0 <==> round == [])
    && s.Approvals(r) == |round|
    && s.InitiatedAt(r) == (if |round| < GUARDIAN_THRESHOLD then 0 else round[1].at)
    && s.RecoveryNonce(r) == Finalizations(s.log, r)
    && DistinctGuardians(round)
    && GenuineRound(c, r, round, s.Pending(r), s.RecoveryNonce(r) % TWO_64)
    && (forall i :: 0 <= i < |round| ==> round[i].guardian in s.Flags(r))
  }

  predicate IsRecoveryStep(m: Small) {
    m.Step? && (m.op.InitiateRecovery? || m.op.SupportRecovery? || m.op.CancelRecovery? || m.op.FinalizeRecovery?)
  }

  // Nothing about recovery has changed, and no recovery event was emitted.
  predicate RecoveryUntouched(s: State, t: State) {
    && t.pendingNewRoot == s.pendingNewRoot && t.recoveryApprovals == s.recoveryApprovals
    && t.recoveryInitiatedAt == s.recoveryInitiatedAt && t.recoveryApproved == s.recoveryApproved
    && t.recoveryNonces == s.recoveryNonces
    && (t.log == s.log
        || (t.log.Snoc? && t.log.before == s.log
            && !t.log.last.Approved? && !t.log.last.Cancelled? && !t.log.last.Finalized?))
  }

  lemma OtherStepsLeaveRecovery(c: Chain, s: State, m: Small)
    requires Next(c, s, m).Some? && !IsRecoveryStep(m)
    ensures RecoveryUntouched(s, Next(c, s, m).value)
  {
    hide Direct, EnterExecute, EnterMulticall, CheckUserOp;
    if m.Step? {
      OtherCallsLeaveRecovery(c, m.now, s, m.sender, m.value, m.op);
    } else {
      var e := CallStepEffect(c, s, m);
      hide Next;
      EffectsLeaveRecovery(s, e);
    }
  }

  lemma EffectsLeaveRecovery(s: State, e: Effect)
    requires Enabled(s, e)
    ensures RecoveryUntouched(s, Affect(s, e))
  {
  }

  lemma OtherCallsLeaveRecovery(c: Chain, now: Timestamp, s: State, sender: Address, value: Uint256, op: DirectOp)
    requires !IsRecoveryStep(Step(now, sender, value, op))
    ensures Direct(c, now, s, sender, value, op).Ok? ==> RecoveryUntouched(s, Direct(c, now, s, sender, value, op).st)
  {
    hide Recover, InitiateRecoveryStep, SupportRecoveryStep, CancelRecoveryStep, FinalizeRecoveryStep, OwnerStep;
    if OwnerOnly(op) {
      OwnerLeavesRecovery(s, sender, op);
    }
  }

  lemma OwnerLeavesRecovery(s: State, sender: Address, op: DirectOp)
    requires OwnerOnly(op)
    ensures OwnerStep(s, sender, op).Ok? ==> RecoveryUntouched(s, OwnerStep(s, sender, op).st)
  {
  }

  lemma UntouchedKeepsRound(c: Chain, s: State, t: State, r: Address)
    requires RoundKept(c, s, r) && RecoveryUntouched(s, t)
    ensures RoundKept(c, t, r)
  {
    hide Genuine;
  }

  lemma StepKeepsRound(c: Chain, s: State, m: Small, r: Address)
    requires RoundKept(c, s, r) && Next(c, s, m).Some?
    ensures RoundKept(c, Next(c, s, m).value, r)
  {
    if IsRecoveryStep(m) {
      RecoveryStepKeepsRound(c, m.now, s, m.sender, m.value, m.op, r);
    } else {
      OtherStepsLeaveRecovery(c, s, m);
      hide Next;
      UntouchedKeepsRound(c, s, Next(c, s, m).value, r);
    }
  }

  lemma RecoveryStepKeepsRound(c: Chain, now: Timestamp, s: State, sender: Address, value: Uint256, op: DirectOp, r: Address)
    requires RoundKept(c, s, r) && IsRecoveryStep(Step(now, sender, value, op))
    ensures Direct(c, now, s, sender, value, op).Ok? ==> RoundKept(c, Direct(c, now, s, sender, value, op).st, r)
  {
    hide RoundKept;
    if Direct(c, now, s, sender, value, op).Ok? {
      match op {
        case InitiateRecovery(oldRoot, newRoot, sig) => InitiateKeepsRound(c, now, s, oldRoot, newRoot, sig, r);
        case SupportRecovery(oldRoot, sig) => SupportKeepsRound(c, now, s, oldRoot, sig, r);
        case CancelRecovery(oldRoot) => CancelKeepsRound(c, s, sender, oldRoot, r);
        case FinalizeRecovery(oldRoot) => FinalizeKeepsRound(c, now, s, oldRoot, r);
      }
    }
  }

  // A step of another root leaves the round of r as it is.
  lemma SameRoundKept(c: Chain, s: State, t: State, r: Address)
    requires RoundKept(c, s, r)
    requires Round(t.log, r) == Round(s.log, r) && Finalizations(t.log, r) == Finalizations(s.log, r)
    requires t.Pending(r) == s.Pending(r) && t.Approvals(r) == s.Approvals(r) && t.InitiatedAt(r) == s.InitiatedAt(r)
    requires t.RecoveryNonce(r) == s.RecoveryNonce(r) && t.Flags(r) == s.Flags(r)
    ensures RoundKept(c, t, r)
  {
    hide Genuine, Round;
  }

  // One more genuine approval, by a guardian whose flag was down, or the first of all.
  lemma GrownRoundKept(c: Chain, s: State, t: State, r: Address, a: Approval)
    requires RoundKept(c, s, r) && Genuine(c, r, a)
    requires Round(t.log, r) == Round(s.log, r) + [a] && Finalizations(t.log, r) == Finalizations(s.log, r)
    requires s.Pending(r) == 0 || (s.Pending(r) == t.Pending(r) && a.guardian !in s.Flags(r))
    requires t.Pending(r) == a.newRoot != 0 && t.RecoveryNonce(r) == s.RecoveryNonce(r)
    requires a.nonce == s.RecoveryNonce(r) % TWO_64
    requires t.Approvals(r) == s.Approvals(r) + 1 && t.Flags(r) == s.Flags(r) + {a.guardian}
    requires t.InitiatedAt(r) == if t.Approvals(r) == GUARDIAN_THRESHOLD then a.at else s.InitiatedAt(r)
    ensures RoundKept(c, t, r)
  {
    hide Genuine, Round;
  }

  // A cancel or finalize leaves an empty round.
  lemma EmptyRoundKept(c: Chain, t: State, r: Address)
    requires Round(t.log, r) == [] && t.RecoveryNonce(r) == Finalizations(t.log, r)
    requires t.Pending(r) == 0 && t.Approvals(r) == 0 && t.InitiatedAt(r) == 0
    ensures RoundKept(c, t, r)
  {
  }

  lemma InitiateKeepsRound(c: Chain, now: Timestamp, s: State, oldRoot: Address, newRoot: Address, sig: Sig, r: Address)
    requires RoundKept(c, s, r) && InitiateRecoveryStep(c, now, s, oldRoot, newRoot, sig).Ok?
    ensures RoundKept(c, InitiateRecoveryStep(c, now, s, oldRoot, newRoot, sig).st, r)
  {
    hide Recover;
    var t := InitiateRecoveryStep(c, now, s, oldRoot, newRoot, sig).st;
    if oldRoot == r {
      assert s.Approvals(r) == 0 && s.InitiatedAt(r) == 0;
      hide RoundKept;
      GrownRoundKept(c, s, t, r, t.log.last.approval);
    } else {
      hide RoundKept;
      SameRoundKept(c, s, t, r);
    }
  }

  lemma SupportKeepsRound(c: Chain, now: Timestamp, s: State, oldRoot: Address, sig: Sig, r: Address)
    requires RoundKept(c, s, r) && SupportRecoveryStep(c, now, s, oldRoot, sig).Ok?
    ensures RoundKept(c, SupportRecoveryStep(c, now, s, oldRoot, sig).st, r)
  {
    hide Recover;
    var t := SupportRecoveryStep(c, now, s, oldRoot, sig).st;
    if oldRoot == r {
      SecondStartsTimelock(c, s, r);
      hide RoundKept;
      GrownRoundKept(c, s, t, r, t.log.last.approval);
    } else {
      hide RoundKept;
      SameRoundKept(c, s, t, r);
    }
  }

  // The timelock has started exactly if two have approved.
  lemma SecondStartsTimelock(c: Chain, s: State, r: Address)
    requires RoundKept(c, s, r)
    ensures s.Approvals(r) >= GUARDIAN_THRESHOLD <==> s.InitiatedAt(r) != 0
  {
    var round := Round(s.log, r);
    assert |round| >= 2 ==> Genuine(c, r, round[1]);
  }

  lemma {:induction false} ClearFlagsOf(flags: map<Address, set<Address>>, root: Address, list: seq<Address>, r: Address)
    ensures Read(ClearFlags(flags, root, list), r, {}) ==
            if r == root then Read(flags, r, {}) - (set g | g in list) else Read(flags, r, {})
    decreases |list|
  {
    if list != [] {
      ClearFlagsOf(flags[root := Read(flags, root, {}) - {list[0]}], root, list[1..], r);
      assert (set g | g in list) == {list[0]} + (set g | g in list[1..]);
    }
  }

  lemma CancelKeepsRound(c: Chain, s: State, sender: Address, oldRoot: Address, r: Address)
    requires RoundKept(c, s, r) && CancelRecoveryStep(s, sender, oldRoot).Ok?
    ensures RoundKept(c, CancelRecoveryStep(s, sender, oldRoot).st, r)
  {
    ClearFlagsOf(s.recoveryApproved, oldRoot, s.Guardians(oldRoot), r);
    hide ClearFlags;
    var t := CancelRecoveryStep(s, sender, oldRoot).st;
    if oldRoot == r {
      EmptyRoundKept(c, t, r);
    } else {
      hide RoundKept;
      SameRoundKept(c, s, t, r);
    }
  }

  lemma FinalizeKeepsRound(c: Chain, now: Timestamp, s: State, oldRoot: Address, r: Address)
    requires RoundKept(c, s, r) && FinalizeRecoveryStep(now, s, oldRoot).Ok?
    ensures RoundKept(c, FinalizeRecoveryStep(now, s, oldRoot).st, r)
  {
    ClearFlagsOf(s.recoveryApproved, oldRoot, [], r);
    var t := FinalizeRecoveryStep(now, s, oldRoot).st;
    if oldRoot == r {
      EmptyRoundKept(c, t, r);
    } else {
      hide RoundKept;
      SameRoundKept(c, s, t, r);
    }
  }

  // ---------------------------------------------------------------------------
  // Identity state and guardian lists
  // ---------------------------------------------------------------------------

  // The state of an identity as the emitted events tell it.
  function StatusIn(log: History, r: Address): IdentityState {
    match log
    case Start => Active
    case Snoc(before, e) =>
      if e.IdentityFrozen? && e.root == r then Frozen
      else if e.IdentityUnfrozen? && e.root == r then Active
      else if e.Approved? && e.root == r && Round(before, r) == [] then RecoveryPending
      else if e.Cancelled? && e.root == r then Active
      else if e.Finalized? && (e.root == r || e.newRoot == r) then Active
      else StatusIn(before, r)
  }

  predicate StatusKept(s: State, r: Address) {
    && s.Status(r) == StatusIn(s.log, r)
    && (s.Status(r) == RecoveryPending ==> s.Pending(r) != 0)
  }

  predicate StatusUntouched(s: State, t: State) {
    && t.identityState == s.identityState && t.guardians == s.guardians && t.pendingNewRoot == s.pendingNewRoot
    && (t.log == s.log
        || (t.log.Snoc? && t.log.before == s.log && !t.log.last.Approved? && !t.log.last.Cancelled?
            && !t.log.last.Finalized? && !t.log.last.IdentityFrozen? && !t.log.last.IdentityUnfrozen?))
  }

  lemma EffectsLeaveStatus(s: State, e: Effect)
    requires Enabled(s, e)
    ensures StatusUntouched(s, Affect(s, e))
  {
  }

  lemma CallKeepsStatus(c: Chain, now: Timestamp, s: State, sender: Address, value: Uint256, op: DirectOp, r: Address)
    requires RoundKept(c, s, r) && StatusKept(s, r)
    ensures Direct(c, now, s, sender, value, op).Ok? ==> StatusKept(Direct(c, now, s, sender, value, op).st, r)
  {
    if IsRecoveryStep(Step(now, sender, value, op)) {
      RecoveryKeepsStatus(c, now, s, sender, value, op, r);
    } else if op.ValidateIntent? || op.ValidateDelegatedIntent? {
      ValidationLeavesStatus(c, now, s, value, op);
      hide ValidateIntentStep, ValidateDelegatedStep;
    } else {
      SettersKeepStatus(c, now, s, sender, value, op, r);
    }
  }

  lemma SettersKeepStatus(c: Chain, now: Timestamp, s: State, sender: Address, value: Uint256, op: DirectOp, r: Address)
    requires StatusKept(s, r) && !IsRecoveryStep(Step(now, sender, value, op))
    requires !op.ValidateIntent? && !op.ValidateDelegatedIntent?
    ensures Direct(c, now, s, sender, value, op).Ok? ==> StatusKept(Direct(c, now, s, sender, value, op).st, r)
  {
    hide ValidateIntentStep, ValidateDelegatedStep, OwnerStep;
    hide InitiateRecoveryStep, SupportRecoveryStep, CancelRecoveryStep, FinalizeRecoveryStep;
    if OwnerOnly(op) {
      OwnerKeepsStatus(s, sender, op, r);
    }
  }

  lemma OwnerKeepsStatus(s: State, sender: Address, op: DirectOp, r: Address)
    requires StatusKept(s, r) && OwnerOnly(op)
    ensures OwnerStep(s, sender, op).Ok? ==> StatusKept(OwnerStep(s, sender, op).st, r)
  {
  }

  lemma ValidationLeavesStatus(c: Chain, now: Timestamp, s: State, value: Uint256, op: DirectOp)
    ensures op.ValidateIntent? ==>
      var o := ValidateIntentStep(c, now, s, value, op.intent); o.Ok? ==> StatusUntouched(s, o.st)
    ensures op.ValidateDelegatedIntent? ==>
      var o := ValidateDelegatedStep(c, now, s, value, op.delegation, op.intent); o.Ok? ==> StatusUntouched(s, o.st)
  {
    hide Recover;
  }

  lemma RecoveryKeepsStatus(c: Chain, now: Timestamp, s: State, sender: Address, value: Uint256, op: DirectOp, r: Address)
    requires RoundKept(c, s, r) && StatusKept(s, r) && IsRecoveryStep(Step(now, sender, value, op))
    ensures Direct(c, now, s, sender, value, op).Ok? ==> StatusKept(Direct(c, now, s, sender, value, op).st, r)
  {
    if Direct(c, now, s, sender, value, op).Ok? {
      match op {
        case InitiateRecovery(oldRoot, newRoot, sig) => InitiateKeepsStatus(c, now, s, oldRoot, newRoot, sig, r);
        case SupportRecovery(oldRoot, sig) => SupportKeepsStatus(c, now, s, oldRoot, sig, r);
        case CancelRecovery(oldRoot) => CancelKeepsStatus(s, sender, oldRoot, r);
        case FinalizeRecovery(oldRoot) => FinalizeKeepsStatus(now, s, oldRoot, r);
      }
    }
    hide StatusKept, RoundKept;
    hide InitiateRecoveryStep, SupportRecoveryStep, CancelRecoveryStep, FinalizeRecoveryStep;
  }

  lemma InitiateKeepsStatus(c: Chain, now: Timestamp, s: State, oldRoot: Address, newRoot: Address, sig: Sig, r: Address)
    requires RoundKept(c, s, r) && StatusKept(s, r) && InitiateRecoveryStep(c, now, s, oldRoot, newRoot, sig).Ok?
    ensures StatusKept(InitiateRecoveryStep(c, now, s, oldRoot, newRoot, sig).st, r)
  {
    hide Recover, GenuineRound, DistinctGuardians;
  }

  lemma SupportKeepsStatus(c: Chain, now: Timestamp, s: State, oldRoot: Address, sig: Sig, r: Address)
    requires RoundKept(c, s, r) && StatusKept(s, r) && SupportRecoveryStep(c, now, s, oldRoot, sig).Ok?
    ensures StatusKept(SupportRecoveryStep(c, now, s, oldRoot, sig).st, r)
  {
    hide Recover, GenuineRound, DistinctGuardians;
  }

  lemma CancelKeepsStatus(s: State, sender: Address, oldRoot: Address, r: Address)
    requires StatusKept(s, r) && CancelRecoveryStep(s, sender, oldRoot).Ok?
    ensures StatusKept(CancelRecoveryStep(s, sender, oldRoot).st, r)
  {
    hide ClearFlags;
  }

  lemma FinalizeKeepsStatus(now: Timestamp, s: State, oldRoot: Address, r: Address)
    requires StatusKept(s, r) && FinalizeRecoveryStep(now, s, oldRoot).Ok?
    ensures StatusKept(FinalizeRecoveryStep(now, s, oldRoot).st, r)
  {
    hide ClearFlags;
  }

  lemma StepKeepsStatus(c: Chain, s: State, m: Small, r: Address)
    requires RoundKept(c, s, r) && StatusKept(s, r) && Next(c, s, m).Some?
    ensures StatusKept(Next(c, s, m).value, r)
  {
    hide Direct, EnterExecute, EnterMulticall, CheckUserOp;
    if m.Step? {
      CallKeepsStatus(c, m.now, s, m.sender, m.value, m.op, r);
    } else {
      var e := CallStepEffect(c, s, m);
      hide Next;
      EffectsLeaveStatus(s, e);
    }
  }

  // setGuardians takes 3 to 5 guardians; a finalized root is left with none.
  predicate GuardianCountsKept(s: State) {
    forall r: Address :: |s.Guardians(r)| == 0 || 3 <= |s.Guardians(r)| <= 5
  }

  lemma CallKeepsGuardianCounts(c: Chain, now: Timestamp, s: State, sender: Address, value: Uint256, op: DirectOp)
    requires GuardianCountsKept(s)
    ensures Direct(c, now, s, sender, value, op).Ok? ==> GuardianCountsKept(Direct(c, now, s, sender, value, op).st)
  {
    if op.SetGuardians? {
      if |op.guardianList| >= 3 && |op.guardianList| <= 5 {
        GuardiansReplaced(s, s.(guardians := s.guardians[op.root := op.guardianList]), op.root);
      }
    } else if op.FinalizeRecovery? {
      if FinalizeRecoveryStep(now, s, op.oldRoot).Ok? {
        FinalizeKeepsGuardianCounts(now, s, op.oldRoot);
      }
      hide FinalizeRecoveryStep;
    } else {
      GuardiansUntouched(c, now, s, sender, value, op);
      hide Direct;
      if Direct(c, now, s, sender, value, op).Ok? {
        SameGuardianCounts(s, Direct(c, now, s, sender, value, op).st);
      }
    }
  }

  lemma GuardiansReplaced(s: State, t: State, root: Address)
    requires GuardianCountsKept(s) && 3 <= |t.Guardians(root)| <= 5
    requires t.guardians == s.guardians[root := t.Guardians(root)]
    ensures GuardianCountsKept(t)
  {
    forall r: Address ensures |t.Guardians(r)| == 0 || 3 <= |t.Guardians(r)| <= 5 {
      assert r != root ==> t.Guardians(r) == s.Guardians(r);
    }
  }

  lemma FinalizeKeepsGuardianCounts(now: Timestamp, s: State, oldRoot: Address)
    requires GuardianCountsKept(s) && FinalizeRecoveryStep(now, s, oldRoot).Ok?
    ensures GuardianCountsKept(FinalizeRecoveryStep(now, s, oldRoot).st)
  {
    var t := FinalizeRecoveryStep(now, s, oldRoot).st;
    hide ClearFlags;
    forall r: Address ensures |t.Guardians(r)| == 0 || 3 <= |t.Guardians(r)| <= 5 {
      assert t.Guardians(r) == if r == oldRoot then [] else if r == s.Pending(oldRoot) then s.Guardians(oldRoot)
                               else s.Guardians(r);
    }
  }

  lemma SameGuardianCounts(s: State, t: State)
    requires GuardianCountsKept(s) && t.guardians == s.guardians
    ensures GuardianCountsKept(t)
  {
    forall r: Address ensures |t.Guardians(r)| == 0 || 3 <= |t.Guardians(r)| <= 5 {
      assert t.Guardians(r) == s.Guardians(r);
    }
  }

  lemma GuardiansUntouched(c: Chain, now: Timestamp, s: State, sender: Address, value: Uint256, op: DirectOp)
    requires !op.SetGuardians? && !op.FinalizeRecovery?
    ensures Direct(c, now, s, sender, value, op).Ok? ==> Direct(c, now, s, sender, value, op).st.guardians == s.guardians
  {
    hide Recover, ClearFlags, FinalizeRecoveryStep, OwnerStep, ValidateIntentStep, ValidateDelegatedStep;
    ValidationLeavesStatus(c, now, s, value, op);
    if OwnerOnly(op) {
      OwnerLeavesGuardians(s, sender, op);
    }
  }

  lemma OwnerLeavesGuardians(s: State, sender: Address, op: DirectOp)
    requires OwnerOnly(op) && !op.SetGuardians?
    ensures OwnerStep(s, sender, op).Ok? ==> OwnerStep(s, sender, op).st.guardians == s.guardians
  {
  }

  lemma StepKeepsGuardianCounts(c: Chain, s: State, m: Small)
    requires GuardianCountsKept(s) && Next(c, s, m).Some?
    ensures GuardianCountsKept(Next(c, s, m).value)
  {
    hide Direct, EnterExecute, EnterMulticall, CheckUserOp;
    if m.Step? {
      CallKeepsGuardianCounts(c, m.now, s, m.sender, m.value, m.op);
      hide GuardianCountsKept;
    } else {
      var e := CallStepEffect(c, s, m);
      hide Next;
      EffectsLeaveStatus(s, e);
      SameGuardianCounts(s, Affect(s, e));
    }
  }

  // ---------------------------------------------------------------------------
  // Every finalization in the history was earned
  // ---------------------------------------------------------------------------

  /** Each finalization of r to newRoot at time t follows, since the last cancel or finalize of r,
      genuine approvals of newRoot by distinct guardians under the then current nonce, of which
      the second is at least 48 hours old. */
  predicate FinalizationsEarned(c: Chain, log: History, r: Address) {
    match log
    case Start => true
    case Snoc(before, e) =>
      && FinalizationsEarned(c, before, r)
      && (e.Finalized? && e.root == r ==>
           var round := Round(before, r);
           && |round| >= GUARDIAN_THRESHOLD
           && DistinctGuardians(round)
           && GenuineRound(c, r, round, e.newRoot, Finalizations(before, r) % TWO_64)
           && round[1].at + RECOVERY_WINDOW <= e.at)
  }

  lemma StepEarnsFinalization(c: Chain, s: State, m: Small, r: Address)
    requires RoundKept(c, s, r) && FinalizationsEarned(c, s.log, r) && Next(c, s, m).Some?
    ensures FinalizationsEarned(c, Next(c, s, m).value.log, r)
  {
    hide Genuine, DistinctGuardians, GenuineRound;
    if IsRecoveryStep(m) {
      RecoveryEarnsFinalization(c, m.now, s, m.sender, m.value, m.op, r);
      hide Direct;
    } else {
      OtherStepsLeaveRecovery(c, s, m);
      hide Next;
    }
  }

  lemma RecoveryEarnsFinalization(c: Chain, now: Timestamp, s: State, sender: Address, value: Uint256, op: DirectOp, r: Address)
    requires RoundKept(c, s, r) && FinalizationsEarned(c, s.log, r) && IsRecoveryStep(Step(now, sender, value, op))
    ensures Direct(c, now, s, sender, value, op).Ok? ==>
            FinalizationsEarned(c, Direct(c, now, s, sender, value, op).st.log, r)
  {
    hide Genuine, DistinctGuardians, GenuineRound, Recover, ClearFlags;
    match op {
      case InitiateRecovery(oldRoot, newRoot, sig) =>
      case SupportRecovery(oldRoot, sig) =>
      case CancelRecovery(oldRoot) =>
      case FinalizeRecovery(oldRoot) =>
    }
  }

  // What every reachable state keeps about every root.
  predicate RecoveryInvariant(c: Chain, s: State, r: Address) {
    RoundKept(c, s, r) && StatusKept(s, r) && GuardianCountsKept(s) && FinalizationsEarned(c, s.log, r)
  }

  lemma {:induction false} LineKeepsRecovery(c: Chain, s: State, line: seq<Small>, r: Address)
    requires RecoveryInvariant(c, s, r) && Steps(c, s, line).Some?
    ensures RecoveryInvariant(c, Steps(c, s, line).value, r)
    decreases |line|
  {
    if line != [] {
      StepKeepsRound(c, s, line[0], r);
      StepKeepsStatus(c, s, line[0], r);
      StepKeepsGuardianCounts(c, s, line[0]);
      StepEarnsFinalization(c, s, line[0], r);
      hide Next, RoundKept, StatusKept, GuardianCountsKept, FinalizationsEarned;
      LineKeepsRecovery(c, Next(c, s, line[0]).value, line[1..], r);
    }
  }

  lemma DeployedIsSafe(c: Chain, owner: Address, r: Address)
    ensures RecoveryInvariant(c, Deployed(owner), r)
  {
  }

  /** In every run from deployment, for every root: storage agrees with the approvals since the last
      cancel or finalize, and every finalization had two distinct guardians and its 48 hours. */
  lemma RunsKeepRecovery(c: Chain, owner: Address, blocks: seq<Block>, r: Address)
    ensures RecoveryInvariant(c, Run(c, Deployed(owner), blocks), r)
  {
    DeployedIsSafe(c, owner, r);
    hide Run, RecoveryInvariant, Deployed, Steps;
    RunIsALine(c, Deployed(owner), blocks);
    LineKeepsRecovery(c, Deployed(owner), RunLine(c, Deployed(owner), blocks), r);
  }

  // The round is exactly the approvals with no cancel or finalize of r after them.
  predicate ApprovedSinceReset(log: History, r: Address, a: Approval) {
    match log
    case Start => false
    case Snoc(before, e) => e == Approved(r, a) || (!EndsRound(e, r) && ApprovedSinceReset(before, r, a))
  }

  lemma {:induction false} RoundIsSinceReset(log: History, r: Address, a: Approval)
    ensures a in Round(log, r) <==> ApprovedSinceReset(log, r, a)
  {
    if log.Snoc? {
      RoundIsSinceReset(log.before, r, a);
    }
  }

  // The counters alone, as a caller reads them in any reachable state.
  lemma RecoveryCountersAgree(c: Chain, owner: Address, blocks: seq<Block>, r: Address)
    ensures var s := Run(c, Deployed(owner), blocks);
      && (s.Pending(r) == 0 <==> s.Approvals(r) == 0)
      && (s.Approvals(r) >= GUARDIAN_THRESHOLD <==> s.InitiatedAt(r) != 0)
      && (s.Status(r) == RecoveryPending ==> s.Pending(r) != 0)
      && forall now: Timestamp :: FinalizeRecoveryStep(now, s, r) != Reverted(TimelockNotStarted)
  {
    var s := Run(c, Deployed(owner), blocks);
    RunsKeepRecovery(c, owner, blocks, r);
    hide Run;
    var round := Round(s.log, r);
    assert |round| >= 2 ==> Genuine(c, r, round[1]);
  }
}
