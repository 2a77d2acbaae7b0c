/** Intent and delegation nonces, and the delegation gate, over whole runs. */
module Nonces {
  import opened Base
  import opened TypedData
  import opened Storage
  import opened IdentityStore
  import opened Execution
  import opened Linear

  function UpTo(n: nat): seq<nat> {
    seq(n, i => i)
  }

  // The intent nonces accepted from signer a, by either entry, since it was last installed as a root.
  function IntentsOf(log: History, a: Address): seq<nat> {
    match log
    case Start => []
    case Snoc(before, e) =>
      if e.IntentAccepted? && e.signer == a then IntentsOf(before, a) + [e.nonce]
      else if e.DelegatedAccepted? && e.delegate == a then IntentsOf(before, a) + [e.nonce]
      else if e.Finalized? && e.newRoot == a then []
      else IntentsOf(before, a)
  }

  function DelegationsOf(log: History, a: Address): seq<nat> {
    match log
    case Start => []
    case Snoc(before, e) =>
      if e.DelegatedAccepted? && e.prover == a then DelegationsOf(before, a) + [e.delegationNonce]
      else if e.Finalized? && e.newRoot == a then []
      else DelegationsOf(before, a)
  }

  // Whether the last of the delegated validations and gated calls was a validation.
  function GateIn(log: History): bool {
    match log
    case Start => false
    case Snoc(before, e) => e.DelegatedAccepted? || (!e.GatedCall? && GateIn(before))
  }

  // Each gated call has its own delegated validation, after every earlier gated call.
  predicate GatedCallsMatched(log: History) {
    match log
    case Start => true
    case Snoc(before, e) => GatedCallsMatched(before) && (e.GatedCall? ==> GateIn(before))
  }

  // The signer whose intent an event accepts, if any.
  function Accepts(e: Event): Option<(Address, nat)> {
    match e
    case IntentAccepted(signer, nonce) => Some((signer, nonce))
    case DelegatedAccepted(_, delegate, _, nonce) => Some((delegate, nonce))
    case _ => None
  }

  // No nonce of a was accepted again before a was installed again.
  predicate NeverRepeated(log: History, a: Address) {
    match log
    case Start => true
    case Snoc(before, e) =>
      && NeverRepeated(before, a)
      && (Accepts(e).Some? && Accepts(e).value.0 == a ==> Accepts(e).value.1 !in IntentsOf(before, a))
  }

  predicate NoncesKept(s: State, a: Address) {
    && IntentsOf(s.log, a) == UpTo(s.Nonce(a))
    && DelegationsOf(s.log, a) == UpTo(s.DelegationNonce(a))
    && s.gateOpen == GateIn(s.log)
    && GatedCallsMatched(s.log)
    && NeverRepeated(s.log, a)
  }

  predicate NoncesUntouched(s: State, t: State) {
    && t.nonces == s.nonces && t.delegationNonces == s.delegationNonces && t.gateOpen == s.gateOpen
    && (t.log == s.log
        || (t.log.Snoc? && t.log.before == s.log && !t.log.last.IntentAccepted? && !t.log.last.DelegatedAccepted?
            && !t.log.last.GatedCall? && !t.log.last.Finalized?))
  }

  lemma UpToNext(n: nat)
    ensures UpTo(n + 1) == UpTo(n) + [n]
  {
  }

  predicate TouchesNonces(op: DirectOp) {
    op.ValidateIntent? || op.ValidateDelegatedIntent? || op.GatedPurchase? || op.FinalizeRecovery?
  }

  lemma OtherCallsLeaveNonces(c: Chain, now: Timestamp, s: State, sender: Address, value: Uint256, op: DirectOp)
    requires !TouchesNonces(op)
    ensures Direct(c, now, s, sender, value, op).Ok? ==> NoncesUntouched(s, Direct(c, now, s, sender, value, op).st)
  {
    hide Recover, ClearFlags, ValidateIntentStep, ValidateDelegatedStep, FinalizeRecoveryStep, OwnerStep;
    if OwnerOnly(op) {
      OwnerLeavesNonces(s, sender, op);
    }
  }

  lemma OwnerLeavesNonces(s: State, sender: Address, op: DirectOp)
    requires OwnerOnly(op)
    ensures OwnerStep(s, sender, op).Ok? ==> NoncesUntouched(s, OwnerStep(s, sender, op).st)
  {
  }

  lemma EffectsLeaveNonces(s: State, e: Effect)
    requires Enabled(s, e)
    ensures NoncesUntouched(s, Affect(s, e))
  {
  }

  lemma ValidateIntentKeepsNonces(c: Chain, now: Timestamp, s: State, value: Uint256, p: Signed<Intent>, a: Address)
    requires NoncesKept(s, a) && ValidateIntentStep(c, now, s, value, p).Ok?
    ensures NoncesKept(ValidateIntentStep(c, now, s, value, p).st, a)
  {
    hide Recover;
    UpToNext(s.Nonce(a));
  }

  lemma ValidateDelegatedKeepsNonces(c: Chain, now: Timestamp, s: State, value: Uint256,
                                     d: Signed<Delegation>, p: Signed<Intent>, a: Address)
    requires NoncesKept(s, a) && ValidateDelegatedStep(c, now, s, value, d, p).Ok?
    ensures NoncesKept(ValidateDelegatedStep(c, now, s, value, d, p).st, a)
  {
    hide Recover;
    UpToNext(s.Nonce(a));
    UpToNext(s.DelegationNonce(a));
  }

  lemma FinalizeKeepsNonces(now: Timestamp, s: State, oldRoot: Address, a: Address)
    requires NoncesKept(s, a) && FinalizeRecoveryStep(now, s, oldRoot).Ok?
    ensures NoncesKept(FinalizeRecoveryStep(now, s, oldRoot).st, a)
  {
    hide ClearFlags;
  }

  lemma StepKeepsNonces(c: Chain, s: State, m: Small, a: Address)
    requires NoncesKept(s, a) && Next(c, s, m).Some?
    ensures NoncesKept(Next(c, s, m).value, a)
  {
    hide EnterExecute, EnterMulticall, CheckUserOp;
    if !m.Step? {
      hide Direct;
      var e := CallStepEffect(c, s, m);
      hide Next;
      EffectsLeaveNonces(s, e);
    } else if TouchesNonces(m.op) {
      match m.op {
        case ValidateIntent(p) => ValidateIntentKeepsNonces(c, m.now, s, m.value, p, a);
        case ValidateDelegatedIntent(d, p) => ValidateDelegatedKeepsNonces(c, m.now, s, m.value, d, p, a);
        case FinalizeRecovery(oldRoot) => FinalizeKeepsNonces(m.now, s, oldRoot, a);
        case GatedPurchase =>
      }
      hide ValidateIntentStep, ValidateDelegatedStep, FinalizeRecoveryStep;
      hide InitiateRecoveryStep, SupportRecoveryStep, CancelRecoveryStep;
    } else {
      OtherCallsLeaveNonces(c, m.now, s, m.sender, m.value, m.op);
      hide Direct;
    }
  }

  lemma {:induction false} LineKeepsNonces(c: Chain, s: State, line: seq<Small>, a: Address)
    requires NoncesKept(s, a) && Steps(c, s, line).Some?
    ensures NoncesKept(Steps(c, s, line).value, a)
    decreases |line|
  {
    if line != [] {
      StepKeepsNonces(c, s, line[0], a);
      hide Next, NoncesKept;
      LineKeepsNonces(c, Next(c, s, line[0]).value, line[1..], a);
    }
  }

  /** In every run, for every address: the intent nonces accepted since its last installation are
      0, 1, 2, … in order, likewise its delegation nonces, and every gated call is matched by a
      delegated validation of its own. */
  lemma NoncesAreConsecutive(c: Chain, owner: Address, blocks: seq<Block>, a: Address)
    ensures NoncesKept(Run(c, Deployed(owner), blocks), a)
  {
    RunIsALine(c, Deployed(owner), blocks);
    LineKeepsNonces(c, Deployed(owner), RunLine(c, Deployed(owner), blocks), a);
  }

  // ---------------------------------------------------------------------------
  // How often one intent is accepted
  // ---------------------------------------------------------------------------

  function TimesAccepted(log: History, a: Address, n: nat): nat {
    match log
    case Start => 0
    case Snoc(before, e) => TimesAccepted(before, a, n) + if Accepts(e) == Some((a, n)) then 1 else 0
  }

  function Installations(log: History, a: Address): nat {
    match log
    case Start => 0
    case Snoc(before, e) => Installations(before, a) + if e.Finalized? && e.newRoot == a then 1 else 0
  }

  lemma {:induction false} RepeatsNeedInstallations(log: History, a: Address, n: nat)
    requires NeverRepeated(log, a)
    ensures TimesAccepted(log, a, n) <= Installations(log, a) + if n in IntentsOf(log, a) then 1 else 0
  {
    if log.Snoc? {
      RepeatsNeedInstallations(log.before, a, n);
    }
  }

  /** In every run a nonce is accepted from a signer, by either validator, at most once more than the signer was
      installed as a root by a finalization: never twice without an installation in between. */
  lemma NoncesProtectBetweenInstallations(c: Chain, owner: Address, blocks: seq<Block>, a: Address, n: nat)
    ensures var log := Run(c, Deployed(owner), blocks).log;
            NeverRepeated(log, a) && TimesAccepted(log, a, n) <= Installations(log, a) + 1
  {
    NoncesAreConsecutive(c, owner, blocks, a);
    hide Run;
    RepeatsNeedInstallations(Run(c, Deployed(owner), blocks).log, a, n);
  }

  /** An installation opens the way: right after it, an intent of the new root is accepted exactly when its nonce
      is 0, whether or not it was accepted before, its epoch is current, and it is live, authorized and
      within its value. */
  lemma InstalledRootStartsOver(c: Chain, t: Timestamp, s: State, oldRoot: Address, now: Timestamp, value: Uint256,
                                p: Signed<Intent>)
    requires FinalizeRecoveryStep(t, s, oldRoot).Ok?
    requires Recover(c, IntentMessage(p.body), p.sig) == Success(s.Pending(oldRoot))
    ensures var a := s.Pending(oldRoot);
      ValidateIntentStep(c, now, FinalizeRecoveryStep(t, s, oldRoot).st, value, p).Ok? <==>
      && p.body.nonce == 0 && p.body.sessionEpoch == s.Epoch(a) && a in s.authorizedKeys
      && now <= p.body.expiration && value <= p.body.maxValue
  {
    hide Recover, ClearFlags;
  }
}
