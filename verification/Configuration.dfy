/** Who may configure the account: over whole runs, keys, provers, claims, guardian lists and the
    entry point are what the owner's committed calls and the committed finalizations say last. */
module Configuration {
  import opened Base
  import opened Storage
  import opened IdentityStore
  import opened Execution
  import opened Linear

  datatype Entry = Key(key: Address) | Prover(prover: Address) | Claim(account: Address, claim: Bytes32)

  predicate Listed(s: State, x: Entry) {
    match x
    case Key(k) => k in s.authorizedKeys
    case Prover(p) => p in s.authorizedProvers
    case Claim(account, claim) => (account, claim) in s.userClaims
  }

  // What a step says about an entry, if anything.
  function Verdict(s: State, m: Small, x: Entry): Option<bool> {
    if !m.Step? then None
    else match m.op
    case AuthorizeKey(k) => if x == Key(k) then Some(true) else None
    case RevokeKey(k) => if x == Key(k) then Some(false) else None
    case RegisterProver(p) => if x == Prover(p) then Some(true) else None
    case RevokeProver(p) => if x == Prover(p) then Some(false) else None
    case SetClaim(account, claim, granted) => if x == Claim(account, claim) then Some(granted) else None
    case FinalizeRecovery(r) =>
      if x == Prover(s.Pending(r)) then Some(true) else if x == Prover(r) then Some(false) else None
    case _ => None
  }

  // What a step makes of the guardian list of r, if anything.
  function NewGuardians(s: State, m: Small, r: Address): Option<seq<Address>> {
    if !m.Step? then None
    else match m.op
    case SetGuardians(root, list) => if root == r then Some(list) else None
    case FinalizeRecovery(oldRoot) =>
      if oldRoot == r then Some([]) else if s.Pending(oldRoot) == r then Some(s.Guardians(oldRoot)) else None
    case _ => None
  }

  function NewEntryPoint(m: Small): Option<Address> {
    if m.Step? && m.op.SetEntryPoint? then Some(m.op.newEntryPoint) else None
  }

  function OrElse<T>(said: Option<T>, before: T): T {
    if said.Some? then said.value else before
  }

  // One step does to the configuration exactly what it says.
  predicate Configures(s: State, m: Small, t: State, x: Entry, r: Address) {
    && t.owner == s.owner
    && Listed(t, x) == OrElse(Verdict(s, m, x), Listed(s, x))
    && t.Guardians(r) == OrElse(NewGuardians(s, m, r), s.Guardians(r))
    && t.entryPoint == OrElse(NewEntryPoint(m), s.entryPoint)
  }

  predicate SameConfiguration(s: State, t: State) {
    && t.owner == s.owner && t.entryPoint == s.entryPoint && t.guardians == s.guardians
    && t.authorizedKeys == s.authorizedKeys && t.authorizedProvers == s.authorizedProvers && t.userClaims == s.userClaims
  }

  lemma EffectsLeaveConfiguration(s: State, e: Effect)
    requires Enabled(s, e)
    ensures SameConfiguration(s, Affect(s, e))
  {
  }

  lemma OwnerStepConfigures(now: Timestamp, s: State, sender: Address, value: Uint256, op: DirectOp, x: Entry, r: Address)
    requires OwnerOnly(op) && OwnerStep(s, sender, op).Ok?
    ensures Configures(s, Step(now, sender, value, op), OwnerStep(s, sender, op).st, x, r) && sender == s.owner
  {
  }

  lemma FinalizeConfigures(now: Timestamp, s: State, sender: Address, value: Uint256, oldRoot: Address, x: Entry, r: Address)
    requires FinalizeRecoveryStep(now, s, oldRoot).Ok?
    ensures Configures(s, Step(now, sender, value, FinalizeRecovery(oldRoot)), FinalizeRecoveryStep(now, s, oldRoot).st, x, r)
  {
    hide ClearFlags;
  }

  lemma OtherCallsLeaveConfiguration(c: Chain, now: Timestamp, s: State, sender: Address, value: Uint256, op: DirectOp)
    requires !OwnerOnly(op) && !op.FinalizeRecovery?
    ensures Direct(c, now, s, sender, value, op).Ok? ==> SameConfiguration(s, Direct(c, now, s, sender, value, op).st)
  {
    hide Recover, ClearFlags, FinalizeRecoveryStep, OwnerStep;
  }

  lemma StepConfigures(c: Chain, s: State, m: Small, x: Entry, r: Address)
    requires Next(c, s, m).Some?
    ensures Configures(s, m, Next(c, s, m).value, x, r)
    ensures m.Step? && OwnerOnly(m.op) ==> m.sender == s.owner
  {
    hide EnterExecute, EnterMulticall, CheckUserOp, Configures;
    if !m.Step? {
      hide Direct;
      var e := CallStepEffect(c, s, m);
      hide Next;
      EffectsLeaveConfiguration(s, e);
      SameIsConfigured(s, m, Affect(s, e), x, r);
    } else if OwnerOnly(m.op) {
      OwnerStepConfigures(m.now, s, m.sender, m.value, m.op, x, r);
      hide OwnerStep;
    } else if m.op.FinalizeRecovery? {
      FinalizeConfigures(m.now, s, m.sender, m.value, m.op.oldRoot, x, r);
      hide FinalizeRecoveryStep;
    } else {
      OtherCallsLeaveConfiguration(c, m.now, s, m.sender, m.value, m.op);
      hide Direct;
      SameIsConfigured(s, m, Next(c, s, m).value, x, r);
    }
  }

  lemma SameIsConfigured(s: State, m: Small, t: State, x: Entry, r: Address)
    requires SameConfiguration(s, t) && (m.Step? ==> !OwnerOnly(m.op) && !m.op.FinalizeRecovery?)
    ensures Configures(s, m, t, x, r)
  {
  }

  // The last word of a line on an entry, on a guardian list, on the entry point.
  function LastVerdict(c: Chain, s: State, line: seq<Small>, x: Entry, before: bool): bool
    decreases |line|
  {
    if line == [] || Next(c, s, line[0]).None? then before
    else LastVerdict(c, Next(c, s, line[0]).value, line[1..], x, OrElse(Verdict(s, line[0], x), before))
  }

  function LastGuardians(c: Chain, s: State, line: seq<Small>, r: Address, before: seq<Address>): seq<Address>
    decreases |line|
  {
    if line == [] || Next(c, s, line[0]).None? then before
    else LastGuardians(c, Next(c, s, line[0]).value, line[1..], r, OrElse(NewGuardians(s, line[0], r), before))
  }

  function LastEntryPoint(line: seq<Small>, before: Address): Address {
    if line == [] then before else LastEntryPoint(line[1..], OrElse(NewEntryPoint(line[0]), before))
  }

  lemma {:induction false} LineConfigures(c: Chain, s: State, line: seq<Small>, x: Entry, r: Address)
    requires Steps(c, s, line).Some?
    ensures var t := Steps(c, s, line).value;
      && t.owner == s.owner
      && Listed(t, x) == LastVerdict(c, s, line, x, Listed(s, x))
      && t.Guardians(r) == LastGuardians(c, s, line, r, s.Guardians(r))
      && t.entryPoint == LastEntryPoint(line, s.entryPoint)
    ensures forall m :: m in line && m.Step? && OwnerOnly(m.op) ==> m.sender == s.owner
    decreases |line|
  {
    if line != [] {
      StepConfigures(c, s, line[0], x, r);
      hide Next, Verdict, NewGuardians, NewEntryPoint;
      LineConfigures(c, Next(c, s, line[0]).value, line[1..], x, r);
      assert line == [line[0]] + line[1..];
    }
  }

  /** In every run, re-entrant calls included: the owner never changes, every committed call of an owner
      function came from the owner, and the configuration is what those calls and the finalized
      recoveries said last. */
  lemma OnlyTheOwnerConfigures(c: Chain, owner: Address, blocks: seq<Block>, x: Entry, r: Address)
    ensures var start, line, end := Deployed(owner), RunLine(c, Deployed(owner), blocks), Run(c, Deployed(owner), blocks);
      && end.owner == owner
      && (forall m :: m in line && m.Step? && OwnerOnly(m.op) ==> m.sender == owner)
      && Listed(end, x) == LastVerdict(c, start, line, x, false)
      && end.Guardians(r) == LastGuardians(c, start, line, r, [])
      && end.entryPoint == LastEntryPoint(line, 0)
  {
    RunIsALine(c, Deployed(owner), blocks);
    LineConfigures(c, Deployed(owner), RunLine(c, Deployed(owner), blocks), x, r);
  }
}
