/** What it takes for a recovery to go through: a recovery by two guardians succeeds exactly when the flag of
    the second is down, and guardian lists left alone keep flags from being left over. */
module RecoveryProgress {
  import opened Base
  import opened Storage
  import opened IdentityStore
  import opened Execution
  import opened Linear
  import opened RecoverySafety

  function Approvers(round: seq<Approval>): set<Address> {
    set a | a in round :: a.guardian
  }

  // The flags of r are this round's approvers, who are all still guardians.
  predicate FlagsExact(s: State, r: Address) {
    && s.Flags(r) == Approvers(Round(s.log, r))
    && s.Flags(r) <= (set g | g in s.Guardians(r))
  }

  // A change of r's guardian list while r is pending, or a finalize of r.
  predicate Disturbs(s: State, m: Small, r: Address) {
    m.Step? && (|| m.op == FinalizeRecovery(r)
                || (s.Pending(r) != 0 && m.op.SetGuardians? && m.op.root == r)
                || (s.Pending(r) != 0 && m.op.FinalizeRecovery? && s.Pending(m.op.oldRoot) == r))
  }

  predicate NeverDisturbed(c: Chain, s: State, line: seq<Small>, r: Address)
    decreases |line|
  {
    line == []
    || (!Disturbs(s, line[0], r)
        && (Next(c, s, line[0]).Some? ==> NeverDisturbed(c, Next(c, s, line[0]).value, line[1..], r)))
  }

  lemma ApproversGrow(round: seq<Approval>, a: Approval)
    ensures Approvers(round + [a]) == Approvers(round) + {a.guardian}
  {
  }

  lemma InitiateKeepsFlags(c: Chain, now: Timestamp, s: State, oldRoot: Address, newRoot: Address, sig: Sig, r: Address)
    requires FlagsExact(s, r) && InitiateRecoveryStep(c, now, s, oldRoot, newRoot, sig).Ok?
    ensures FlagsExact(InitiateRecoveryStep(c, now, s, oldRoot, newRoot, sig).st, r)
  {
    var t := InitiateRecoveryStep(c, now, s, oldRoot, newRoot, sig).st;
    ApproversGrow(Round(s.log, r), t.log.last.approval);
    hide Recover;
  }

  lemma SupportKeepsFlags(c: Chain, now: Timestamp, s: State, oldRoot: Address, sig: Sig, r: Address)
    requires FlagsExact(s, r) && SupportRecoveryStep(c, now, s, oldRoot, sig).Ok?
    ensures FlagsExact(SupportRecoveryStep(c, now, s, oldRoot, sig).st, r)
  {
    var t := SupportRecoveryStep(c, now, s, oldRoot, sig).st;
    ApproversGrow(Round(s.log, r), t.log.last.approval);
    hide Recover;
  }

  // cancelRecovery takes the flags of the guardians now listed, and no others.
  lemma CancelClearsListedFlags(s: State, sender: Address, r: Address)
    requires CancelRecoveryStep(s, sender, r).Ok?
    ensures CancelRecoveryStep(s, sender, r).st.Flags(r) == s.Flags(r) - (set g | g in s.Guardians(r))
    ensures CancelRecoveryStep(s, sender, r).st.Flags(r) == {} <==> s.Flags(r) <= (set g | g in s.Guardians(r))
  {
    ClearFlagsOf(s.recoveryApproved, r, s.Guardians(r), r);
    hide ClearFlags;
    var flags, listed := s.Flags(r), set g | g in s.Guardians(r);
    if flags - listed == {} {
      assert forall g :: g in flags && g !in listed ==> g in flags - listed;
    }
  }

  lemma CancelKeepsFlags(s: State, sender: Address, oldRoot: Address, r: Address)
    requires FlagsExact(s, r) && CancelRecoveryStep(s, sender, oldRoot).Ok?
    ensures FlagsExact(CancelRecoveryStep(s, sender, oldRoot).st, r)
  {
    ClearFlagsOf(s.recoveryApproved, oldRoot, s.Guardians(oldRoot), r);
    hide ClearFlags;
  }

  /** finalizeRecovery clears no flag of any root: the list it loops over has just been deleted. So the
      flags of the finished round outlive it. */
  lemma FinalizeClearsNoFlag(now: Timestamp, s: State, oldRoot: Address)
    requires FinalizeRecoveryStep(now, s, oldRoot).Ok?
    ensures FinalizeRecoveryStep(now, s, oldRoot).st.recoveryApproved == s.recoveryApproved
  {
    var moved := s.guardians[s.Pending(oldRoot) := s.Guardians(oldRoot)][oldRoot := []];
    assert Read(moved, oldRoot, []) == [];
    assert ClearFlags(s.recoveryApproved, oldRoot, []) == s.recoveryApproved;
  }

  lemma FinalizeKeepsFlags(now: Timestamp, s: State, oldRoot: Address, r: Address)
    requires FlagsExact(s, r) && oldRoot != r && FinalizeRecoveryStep(now, s, oldRoot).Ok?
    requires s.Pending(oldRoot) == r ==> s.Flags(r) == {}
    ensures FlagsExact(FinalizeRecoveryStep(now, s, oldRoot).st, r)
  {
    FinalizeClearsNoFlag(now, s, oldRoot);
    hide ClearFlags;
  }

  lemma OtherCallsKeepFlags(c: Chain, now: Timestamp, s: State, sender: Address, value: Uint256, op: DirectOp, r: Address)
    requires FlagsExact(s, r) && (s.Pending(r) == 0 ==> s.Flags(r) == {})
    requires !Disturbs(s, Step(now, sender, value, op), r) && !IsRecoveryStep(Step(now, sender, value, op))
    ensures Direct(c, now, s, sender, value, op).Ok? ==> FlagsExact(Direct(c, now, s, sender, value, op).st, r)
  {
    OtherCallsLeaveRecovery(c, now, s, sender, value, op);
    if !op.SetGuardians? {
      GuardiansUntouched(c, now, s, sender, value, op);
      hide Direct;
    } else {
      hide Recover, ClearFlags, ValidateIntentStep, ValidateDelegatedStep, InitiateRecoveryStep, SupportRecoveryStep;
    }
  }

  lemma StepKeepsFlags(c: Chain, s: State, m: Small, r: Address)
    requires RoundKept(c, s, r) && FlagsExact(s, r) && Next(c, s, m).Some? && !Disturbs(s, m, r)
    ensures FlagsExact(Next(c, s, m).value, r)
  {
    assert s.Pending(r) == 0 ==> s.Flags(r) == {};
    hide EnterExecute, EnterMulticall, CheckUserOp, RoundKept, FlagsExact;
    if !m.Step? {
      hide Direct;
      var e := CallStepEffect(c, s, m);
      hide Next;
      EffectsKeepFlags(s, e, r);
    } else if IsRecoveryStep(m) {
      match m.op {
        case InitiateRecovery(oldRoot, newRoot, sig) => InitiateKeepsFlags(c, m.now, s, oldRoot, newRoot, sig, r);
        case SupportRecovery(oldRoot, sig) => SupportKeepsFlags(c, m.now, s, oldRoot, sig, r);
        case CancelRecovery(oldRoot) => CancelKeepsFlags(s, m.sender, oldRoot, r);
        case FinalizeRecovery(oldRoot) => FinalizeKeepsFlags(m.now, s, oldRoot, r);
      }
      hide InitiateRecoveryStep, SupportRecoveryStep, CancelRecoveryStep, FinalizeRecoveryStep;
    } else {
      OtherCallsKeepFlags(c, m.now, s, m.sender, m.value, m.op, r);
      hide Direct;
    }
  }

  lemma EffectsKeepFlags(s: State, e: Effect, r: Address)
    requires Enabled(s, e) && FlagsExact(s, r)
    ensures FlagsExact(Affect(s, e), r)
  {
    EffectsLeaveRecovery(s, e);
    EffectsLeaveStatus(s, e);
    hide Affect;
  }

  /** In a run that never changes r's guardians while r is pending and never finalizes r, the flags of
      r are exactly this round's approvers throughout. */
  lemma {:induction false} UndisturbedFlagsStayExact(c: Chain, s: State, line: seq<Small>, r: Address)
    requires RoundKept(c, s, r) && FlagsExact(s, r)
    requires Steps(c, s, line).Some? && NeverDisturbed(c, s, line, r)
    ensures RoundKept(c, Steps(c, s, line).value, r) && FlagsExact(Steps(c, s, line).value, r)
    decreases |line|
  {
    if line != [] {
      StepKeepsRound(c, s, line[0], r);
      StepKeepsFlags(c, s, line[0], r);
      hide Next, RoundKept, FlagsExact, Disturbs;
      UndisturbedFlagsStayExact(c, Next(c, s, line[0]).value, line[1..], r);
    }
  }

  lemma UndisturbedRunsStayExact(c: Chain, owner: Address, blocks: seq<Block>, r: Address)
    requires NeverDisturbed(c, Deployed(owner), RunLine(c, Deployed(owner), blocks), r)
    ensures FlagsExact(Run(c, Deployed(owner), blocks), r)
  {
    RunIsALine(c, Deployed(owner), blocks);
    UndisturbedFlagsStayExact(c, Deployed(owner), RunLine(c, Deployed(owner), blocks), r);
  }

  // ---------------------------------------------------------------------------
  // When two guardians can recover a root
  // ---------------------------------------------------------------------------

  // 48 hours lie between two times, and the recovery nonce can still be incremented.
  predicate CanFinalize(s: State, r: Address, t2: Timestamp, t3: Timestamp) {
    t2 + RECOVERY_WINDOW <= t3 && s.RecoveryNonce(r) + 1 < TWO_256
  }

  /** From any state with r registered and nothing pending, whatever flags are left over, let guardian g1 start a
      recovery and another guardian g2 support it. The start always succeeds, the support exactly when the
      flag of g2 is down, and then the finalization exactly 48 hours later; without the support the
      threshold is not met. */
  lemma TwoGuardiansCanRecover(c: Chain, s: State, r: Address, newRoot: Address, g1: Address, sig1: Sig,
                               g2: Address, sig2: Sig, t1: Timestamp, t2: Timestamp, t3: Timestamp)
    requires RoundKept(c, s, r) && s.Pending(r) == 0 && r in s.authorizedProvers
    requires newRoot != 0 && g1 != g2 && g1 in s.Guardians(r) && g2 in s.Guardians(r)
    requires Recover(c, RecoveryRequest(c, s, r, newRoot), sig1) == Success(g1)
    requires Recover(c, RecoveryRequest(c, s, r, newRoot), sig2) == Success(g2)
    ensures var o1 := InitiateRecoveryStep(c, t1, s, r, newRoot, sig1);
      && o1.Ok? && o1.st.log.Snoc? && o1.st.log.last.Approved?
      && var o2 := SupportRecoveryStep(c, t2, o1.st, r, sig2);
      && (o2.Ok? <==> g2 !in s.Flags(r))
      && (!o2.Ok? ==> o2 == Reverted(AlreadyApproved) && FinalizeRecoveryStep(t3, o1.st, r) == Reverted(ThresholdNotMet))
      && (o2.Ok? ==>
            && o2.st.log.Snoc? && o2.st.log.last.Approved?
            && var o3 := FinalizeRecoveryStep(t3, o2.st, r);
            && (o3.Ok? <==> CanFinalize(s, r, t2, t3))
            && (o3.Ok? ==>
                  && newRoot in o3.st.authorizedProvers && (newRoot != r ==> r !in o3.st.authorizedProvers)
                  && o3.st.log.Snoc? && o3.st.log.last == Finalized(r, newRoot, t3)
                  && (newRoot != r ==> o3.st.Guardians(newRoot) == s.Guardians(r))))
  {
    RecoveryStarts(c, s, r, newRoot, g1, sig1, t1);
    var s1 := InitiateRecoveryStep(c, t1, s, r, newRoot, sig1).st;
    hide InitiateRecoveryStep, FinalizeRecoveryStep, Recover, RoundKept;
    RecoveryFinalizes(s1, r, t3);
    SecondSupports(c, s1, r, g2, sig2, t2);
    var o2 := SupportRecoveryStep(c, t2, s1, r, sig2);
    hide SupportRecoveryStep;
    if o2.Ok? {
      RecoveryFinalizes(o2.st, r, t3);
    }
  }

  // The first approval, and what it leaves for the second.
  lemma RecoveryStarts(c: Chain, s: State, r: Address, newRoot: Address, g: Address, sig: Sig, now: Timestamp)
    requires RoundKept(c, s, r) && s.Pending(r) == 0 && r in s.authorizedProvers && newRoot != 0 && g in s.Guardians(r)
    requires Recover(c, RecoveryRequest(c, s, r, newRoot), sig) == Success(g)
    ensures var o := InitiateRecoveryStep(c, now, s, r, newRoot, sig);
      && o.Ok? && o.st.log.Snoc? && o.st.log.last.Approved?
      && o.st.Pending(r) == newRoot && o.st.Approvals(r) == 1 && o.st.InitiatedAt(r) == 0
      && o.st.Flags(r) == s.Flags(r) + {g} && o.st.guardians == s.guardians
      && o.st.recoveryNonces == s.recoveryNonces && o.st.authorizedProvers == s.authorizedProvers
  {
    hide Recover, GenuineRound, DistinctGuardians;
  }

  // The second approval, exactly if its flag is down.
  lemma SecondSupports(c: Chain, s: State, r: Address, g: Address, sig: Sig, now: Timestamp)
    requires s.Pending(r) != 0 && s.Approvals(r) == 1 && s.InitiatedAt(r) == 0 && g in s.Guardians(r)
    requires Recover(c, RecoveryRequest(c, s, r, s.Pending(r)), sig) == Success(g)
    ensures var o := SupportRecoveryStep(c, now, s, r, sig);
      && (o.Ok? <==> g !in s.Flags(r)) && (!o.Ok? ==> o == Reverted(AlreadyApproved))
      && (o.Ok? ==>
            && o.st.log.Snoc? && o.st.log.last.Approved?
            && o.st.Pending(r) == s.Pending(r) && o.st.Approvals(r) == 2 && o.st.InitiatedAt(r) == now
            && o.st.guardians == s.guardians && o.st.recoveryNonces == s.recoveryNonces
            && o.st.authorizedProvers == s.authorizedProvers)
  {
    hide Recover;
  }

  // In any state, an approval raises the count by one, and starts the timelock if it makes two and none runs.
  lemma SupportStartsTimelock(c: Chain, s: State, r: Address, sig: Sig, now: Timestamp)
    ensures var o := SupportRecoveryStep(c, now, s, r, sig);
      o.Ok? ==>
        && o.st.Approvals(r) == s.Approvals(r) + 1
        && o.st.InitiatedAt(r) == if s.Approvals(r) >= 1 && s.InitiatedAt(r) == 0 then now else s.InitiatedAt(r)
  {
    hide Recover;
  }

  // When a pending recovery finalizes, and what it then does.
  lemma RecoveryFinalizes(s: State, r: Address, now: Timestamp)
    requires s.Pending(r) != 0 && (s.Approvals(r) >= GUARDIAN_THRESHOLD <==> s.InitiatedAt(r) != 0)
    ensures var o := FinalizeRecoveryStep(now, s, r);
      var newRoot := s.Pending(r);
      && (o.Ok? <==> s.Approvals(r) >= GUARDIAN_THRESHOLD && s.InitiatedAt(r) + RECOVERY_WINDOW <= now
                     && s.RecoveryNonce(r) + 1 < TWO_256)
      && (s.Approvals(r) < GUARDIAN_THRESHOLD ==> o == Reverted(ThresholdNotMet))
      && (o.Ok? ==>
            && newRoot in o.st.authorizedProvers && (newRoot != r ==> r !in o.st.authorizedProvers)
            && o.st.log.Snoc? && o.st.log.last == Finalized(r, newRoot, now)
            && (newRoot != r ==> o.st.Guardians(newRoot) == s.Guardians(r)))
  {
    hide ClearFlags;
  }

  function Sends(sender: Address, now: Timestamp, op: DirectOp): Block {
    Block(now, Tx(sender, 0, Plain(op)))
  }

  function After(c: Chain, s: State, b: Block): State {
    Settle(s, Exec(c, b.now, s, b.tx))
  }

  lemma PlainSettles(c: Chain, s: State, b: Block)
    requires b.tx.op.Plain?
    ensures After(c, s, b) == Settle(s, Direct(c, b.now, s, b.tx.sender, b.tx.value, b.tx.op.direct))
  {
    hide Direct;
  }

  lemma RunThree(c: Chain, s: State, b1: Block, b2: Block, b3: Block)
    ensures Run(c, s, [b1, b2, b3]) == After(c, After(c, After(c, s, b1), b2), b3)
  {
    hide Exec;
    var s1 := After(c, s, b1);
    var s2 := After(c, s1, b2);
    assert [b1, b2, b3][1..] == [b2, b3] && [b2, b3][1..] == [b3] && [b3][1..] == [];
    assert Run(c, s, [b1, b2, b3]) == Run(c, s1, [b2, b3]);
    assert Run(c, s1, [b2, b3]) == Run(c, s2, [b3]);
  }

  // The three transactions of a recovery, sent by anyone.
  function Schedule(r: Address, newRoot: Address, sig1: Sig, sig2: Sig, sender: Address,
                    t1: Timestamp, t2: Timestamp, t3: Timestamp): seq<Block>
  {
    [Sends(sender, t1, InitiateRecovery(r, newRoot, sig1)), Sends(sender, t2, SupportRecovery(r, sig2)),
     Sends(sender, t3, FinalizeRecovery(r))]
  }

  lemma ScheduleRuns(c: Chain, s: State, r: Address, newRoot: Address, sig1: Sig, sig2: Sig, sender: Address,
                     t1: Timestamp, t2: Timestamp, t3: Timestamp)
    ensures var s1 := Settle(s, InitiateRecoveryStep(c, t1, s, r, newRoot, sig1));
      var s2 := Settle(s1, SupportRecoveryStep(c, t2, s1, r, sig2));
      Run(c, s, Schedule(r, newRoot, sig1, sig2, sender, t1, t2, t3)) == Settle(s2, FinalizeRecoveryStep(t3, s2, r))
  {
    hide InitiateRecoveryStep, SupportRecoveryStep, FinalizeRecoveryStep, Run, After;
    var s1 := Settle(s, InitiateRecoveryStep(c, t1, s, r, newRoot, sig1));
    var s2 := Settle(s1, SupportRecoveryStep(c, t2, s1, r, sig2));
    InitiateSettles(c, s, sender, t1, r, newRoot, sig1);
    SupportSettles(c, s1, sender, t2, r, sig2);
    FinalizeSettles(c, s2, sender, t3, r);
    RunThree(c, s, Sends(sender, t1, InitiateRecovery(r, newRoot, sig1)), Sends(sender, t2, SupportRecovery(r, sig2)),
             Sends(sender, t3, FinalizeRecovery(r)));
  }

  lemma InitiateSettles(c: Chain, s: State, sender: Address, now: Timestamp, r: Address, newRoot: Address, sig: Sig)
    ensures After(c, s, Sends(sender, now, InitiateRecovery(r, newRoot, sig)))
            == Settle(s, InitiateRecoveryStep(c, now, s, r, newRoot, sig))
  {
    hide InitiateRecoveryStep;
  }

  lemma SupportSettles(c: Chain, s: State, sender: Address, now: Timestamp, r: Address, sig: Sig)
    ensures After(c, s, Sends(sender, now, SupportRecovery(r, sig))) == Settle(s, SupportRecoveryStep(c, now, s, r, sig))
  {
    hide SupportRecoveryStep;
  }

  lemma FinalizeSettles(c: Chain, s: State, sender: Address, now: Timestamp, r: Address)
    ensures After(c, s, Sends(sender, now, FinalizeRecovery(r))) == Settle(s, FinalizeRecoveryStep(now, s, r))
  {
    hide FinalizeRecoveryStep;
  }

  /** After any run from deployment, whatever happened to r before: of a registered root with nothing pending,
      the three transactions of a recovery end in its finalization exactly when the flag of the
      supporting guardian is down and 48 hours pass. */
  lemma RootIsRecoverable(c: Chain, owner: Address, blocks: seq<Block>, r: Address, newRoot: Address,
                          g1: Address, sig1: Sig, g2: Address, sig2: Sig, sender: Address,
                          t1: Timestamp, t2: Timestamp, t3: Timestamp)
    requires var s := Run(c, Deployed(owner), blocks);
      && s.Pending(r) == 0 && r in s.authorizedProvers
      && g1 in s.Guardians(r) && g2 in s.Guardians(r)
      && Recover(c, RecoveryRequest(c, s, r, newRoot), sig1) == Success(g1)
      && Recover(c, RecoveryRequest(c, s, r, newRoot), sig2) == Success(g2)
    requires newRoot != 0 && g1 != g2
    ensures var s := Run(c, Deployed(owner), blocks);
      var end := Run(c, s, Schedule(r, newRoot, sig1, sig2, sender, t1, t2, t3));
      && end.log.Snoc?
      && (end.log.last == Finalized(r, newRoot, t3) <==> g2 !in s.Flags(r) && CanFinalize(s, r, t2, t3))
      && (end.log.last == Finalized(r, newRoot, t3) ==>
            newRoot in end.authorizedProvers && (newRoot != r ==> r !in end.authorizedProvers))
  {
    var s := Run(c, Deployed(owner), blocks);
    RunsKeepRecovery(c, owner, blocks, r);
    hide Run, Recover, RecoveryRequest, RoundKept, CanFinalize;
    hide InitiateRecoveryStep, SupportRecoveryStep, FinalizeRecoveryStep;
    TwoGuardiansCanRecover(c, s, r, newRoot, g1, sig1, g2, sig2, t1, t2, t3);
    ScheduleRuns(c, s, r, newRoot, sig1, sig2, sender, t1, t2, t3);
  }

  /** In a run that never changes r's guardians while r is pending and never finalizes r, no flag is ever in the
      way: any two guardians can recover r. */
  lemma UndisturbedRootIsRecoverable(c: Chain, owner: Address, blocks: seq<Block>, r: Address, newRoot: Address,
                                     g1: Address, sig1: Sig, g2: Address, sig2: Sig, sender: Address,
                                     t1: Timestamp, t2: Timestamp, t3: Timestamp)
    requires NeverDisturbed(c, Deployed(owner), RunLine(c, Deployed(owner), blocks), r)
    requires var s := Run(c, Deployed(owner), blocks);
      && s.Pending(r) == 0 && r in s.authorizedProvers
      && g1 in s.Guardians(r) && g2 in s.Guardians(r)
      && Recover(c, RecoveryRequest(c, s, r, newRoot), sig1) == Success(g1)
      && Recover(c, RecoveryRequest(c, s, r, newRoot), sig2) == Success(g2)
    requires newRoot != 0 && g1 != g2
    ensures var s := Run(c, Deployed(owner), blocks);
      var end := Run(c, s, Schedule(r, newRoot, sig1, sig2, sender, t1, t2, t3));
      && end.log.Snoc? && (end.log.last == Finalized(r, newRoot, t3) <==> CanFinalize(s, r, t2, t3))
  {
    var s := Run(c, Deployed(owner), blocks);
    RunsKeepRecovery(c, owner, blocks, r);
    UndisturbedRunsStayExact(c, owner, blocks, r);
    assert s.Flags(r) == {};
    hide Run, NeverDisturbed, Recover, RoundKept, CanFinalize, FlagsExact;
    RootIsRecoverable(c, owner, blocks, r, newRoot, g1, sig1, g2, sig2, sender, t1, t2, t3);
  }

  /** A guardian who has signed for the pending root can add its approval exactly when its flag is
      down. The flag may be up although the guardian has not approved in this round. */
  lemma SupportNeedsClearFlag(c: Chain, now: Timestamp, s: State, r: Address, g: Address, sig: Sig)
    requires s.Pending(r) != 0 && g in s.Guardians(r) && s.Approvals(r) + 1 < TWO_256
    requires Recover(c, RecoveryRequest(c, s, r, s.Pending(r)), sig) == Success(g)
    ensures SupportRecoveryStep(c, now, s, r, sig).Ok? <==> g !in s.Flags(r)
    ensures g in s.Flags(r) ==> SupportRecoveryStep(c, now, s, r, sig) == Reverted(AlreadyApproved)
  {
    hide Recover;
  }
}
