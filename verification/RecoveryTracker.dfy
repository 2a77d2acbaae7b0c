/** The off-chain tracker of src/recovery/mod.rs and its agreement with the contract. */
module RecoveryTracker {
  import opened Base
  import opened TypedData
  import opened Storage
  import opened IdentityStore
  import opened Execution
  import opened RecoverySafety

  // The tracker's two changing fields as a value.
  datatype Tracker = Tracker(approvals: seq<Address>, initiatedAt: Option<nat>)
  {
    function Add(guardian: Address): Tracker {
      if guardian in approvals then this else this.(approvals := approvals + [guardian])
    }

    predicate ThresholdMet(threshold: nat) {
      |approvals| >= threshold
    }

    /** 172800 seconds are added in u64 arithmetic. When the sum overflows, a build with overflow checks
        panics (None here) and one without them wraps around. */
    function TimelockExpired(now: Uint64, checked: bool): Option<bool>
      requires initiatedAt.Some? ==> initiatedAt.value < TWO_64
    {
      if initiatedAt.None? then Some(false)
      else
        var expiry := initiatedAt.value + 172800;
        if expiry < TWO_64 then Some(now >= expiry) else if checked then None else Some(now >= expiry - TWO_64)
    }

    // A client's use of the tracker: record the approval, and the time the threshold is first met.
    function Follow(a: Approval): Tracker {
      var added := Add(a.guardian);
      if added.ThresholdMet(GUARDIAN_THRESHOLD) && added.initiatedAt.None? then added.(initiatedAt := Some(a.at)) else added
    }
  }

  class PendingRecovery {
    const request: Recovery
    var approvals: seq<Address>
    var initiatedAt: Option<Uint64>

    function View(): Tracker
      reads this
    {
      Tracker(approvals, initiatedAt)
    }

    constructor (request: Recovery)
      ensures this.request == request && View() == Tracker([], None)
    {
      this.request := request;
      approvals := [];
      initiatedAt := None;
    }

    method AddApproval(guardian: Address) returns (isNew: bool)
      modifies this`approvals
      ensures isNew <==> guardian !in old(approvals)
      ensures View() == old(View()).Add(guardian)
    {
      if guardian in approvals {
        return false;
      }
      approvals := approvals + [guardian];
      return true;
    }

    method ThresholdMet(threshold: nat) returns (met: bool)
      ensures met <==> View().ThresholdMet(threshold)
    {
      met := |approvals| >= threshold;
    }

    method TimelockExpired(now: Uint64, checked: bool) returns (expired: Option<bool>)
      ensures expired == View().TimelockExpired(now, checked)
    {
      match initiatedAt {
        case Some(t) =>
          if checked && t + 172800 >= TWO_64 { return None; }
          return Some(now >= (t + 172800) % TWO_64);
        case None => return Some(false);
      }
    }
  }

  function FollowAll(round: seq<Approval>): Tracker {
    if round == [] then Tracker([], None) else FollowAll(round[..|round| - 1]).Follow(round[|round| - 1])
  }

  // Fed one round, the tracker lists its approvers in order; every approval was new to it.
  lemma {:induction false} TrackerListsRound(round: seq<Approval>)
    requires DistinctGuardians(round)
    ensures var t := FollowAll(round);
      && |t.approvals| == |round|
      && (forall i :: 0 <= i < |round| ==> t.approvals[i] == round[i].guardian)
      && (forall i, j :: 0 <= i < j < |round| ==> t.approvals[i] != t.approvals[j])
      && t.initiatedAt == (if |round| < GUARDIAN_THRESHOLD then None else Some(round[1].at))
    ensures round != [] ==> round[|round| - 1].guardian !in FollowAll(round[..|round| - 1]).approvals
  {
    if round != [] {
      TrackerListsRound(round[..|round| - 1]);
    }
  }

  function AddAll(guardians: seq<Address>): Tracker {
    if guardians == [] then Tracker([], None)
    else AddAll(guardians[..|guardians| - 1]).Add(guardians[|guardians| - 1])
  }

  function Members(guardians: seq<Address>): set<Address> {
    set a | a in guardians
  }

  // The list holds each of these guardians, once.
  predicate ListsOnce(approvals: seq<Address>, guardians: set<Address>) {
    && (forall a :: a in approvals ==> a in guardians) && (forall a :: a in guardians ==> a in approvals)
    && (forall i, j :: 0 <= i < j < |approvals| ==> approvals[i] != approvals[j])
    && |approvals| == |guardians|
  }

  lemma AddKeepsOnce(t: Tracker, guardians: set<Address>, g: Address)
    requires ListsOnce(t.approvals, guardians)
    ensures ListsOnce(t.Add(g).approvals, guardians + {g})
  {
    if g in guardians {
      assert guardians + {g} == guardians;
    }
  }

  lemma {:induction false} AddAllListsOnce(guardians: seq<Address>)
    ensures ListsOnce(AddAll(guardians).approvals, Members(guardians))
  {
    hide ListsOnce, Tracker.Add;
    if guardians == [] {
      assert ListsOnce([], {}) by { NothingListed(); }
      assert Members(guardians) == {};
    } else {
      var (front, last) := (guardians[..|guardians| - 1], guardians[|guardians| - 1]);
      AddAllListsOnce(front);
      AddKeepsOnce(AddAll(front), Members(front), last);
      MembersGrow(front, last);
      assert guardians == front + [last];
    }
  }

  lemma MembersGrow(front: seq<Address>, last: Address)
    ensures Members(front + [last]) == Members(front) + {last}
  {
  }

  lemma NothingListed()
    ensures ListsOnce([], {})
  {
  }

  /** Whatever is fed to it, and however often, the tracker lists each guardian once: its count is the number of
      different guardians. Adding one more grows the list exactly if that guardian is new. */
  lemma TrackerCountsDistinct(guardians: seq<Address>, g: Address)
    ensures ListsOnce(AddAll(guardians).approvals, Members(guardians))
    ensures |AddAll(guardians).Add(g).approvals| == |AddAll(guardians).approvals| + if g in guardians then 0 else 1
  {
    AddAllListsOnce(guardians);
    assert g in guardians <==> g in Members(guardians);
    hide AddAll;
  }

  /** In every reachable state the tracker fed r's current round counts what the contract counts, and its two
      tests together say exactly when finalizeRecovery(r) is enabled (short of the recovery nonce
      overflowing), if and only if the expiry fits a u64, or wraps around to a time not yet reached. */
  lemma TrackerSimulatesChain(c: Chain, owner: Address, blocks: seq<Block>, r: Address, now: Uint64, checked: bool)
    requires Run(c, Deployed(owner), blocks).InitiatedAt(r) < TWO_64 && now > 0
    ensures var s := Run(c, Deployed(owner), blocks);
      var t := FollowAll(Round(s.log, r));
      && |t.approvals| == s.Approvals(r)
      && (t.initiatedAt.Some? ==> t.initiatedAt.value == s.InitiatedAt(r))
      && var expired := t.TimelockExpired(now, checked);
         var canAdvance := s.RecoveryNonce(r) + 1 < TWO_256;
         var expiry := s.InitiatedAt(r) + RECOVERY_WINDOW;
         (expired.Some? && (FinalizeRecoveryStep(now, s, r).Ok? <==>
            t.ThresholdMet(GUARDIAN_THRESHOLD) && expired.value && canAdvance))
         <==> expiry < TWO_64 || (!checked && (now < expiry - TWO_64 || !canAdvance))
  {
    var s := Run(c, Deployed(owner), blocks);
    RunsKeepRecovery(c, owner, blocks, r);
    hide Run;
    var round := Round(s.log, r);
    TrackerListsRound(round);
    assert |round| >= 2 ==> Genuine(c, r, round[1]);
  }
}
