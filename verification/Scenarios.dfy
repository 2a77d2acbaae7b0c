/** Runs from deployment in which the contract does what its documentation leaves out. They play on any chain, with
    any hash function, as long as the people in them can sign. */
module Scenarios {
  import opened Base
  import opened Words
  import opened TypedData
  import opened Storage
  import opened IdentityStore
  import opened Execution
  import opened Linear
  import opened RecoverySafety
  import opened RecoveryProgress
  import opened SessionKeys
  import opened Authority
  import opened Nonces

  // ---------------------------------------------------------------------------
  // The cast
  // ---------------------------------------------------------------------------

  // An address and what its key signs for each message.
  datatype Signer = Signer(address: Address, sign: Message -> Sig)

  predicate Signs(c: Chain, x: Signer, m: Message) {
    Recover(c, m, x.sign(m)) == Success(x.address)
  }

  ghost predicate HoldsKey(c: Chain, x: Signer) {
    forall m: Message :: Signs(c, x, m)
  }

  // The owner, a bystander who sends transactions, a root and its heir, a session key, guardians, two contracts.
  datatype Cast = Cast(
    owner: Address, anyone: Address, root: Signer, heir: Signer, key: Signer,
    g1: Signer, g2: Signer, g3: Address, others: seq<Address>, target: Address, elsewhere: Address)
  {
    const r := root.address
    const guardians := [g1.address, g2.address, g3]
  }

  ghost predicate Playing(c: Chain, k: Cast) {
    && HoldsKey(c, k.root) && HoldsKey(c, k.heir) && HoldsKey(c, k.key) && HoldsKey(c, k.g1) && HoldsKey(c, k.g2)
    && k.g1.address != k.g2.address && |k.others| == 3 && k.g1.address !in k.others
    && k.owner != 0 && k.anyone != 0 && k.heir.address != 0 && k.target != k.elsewhere
  }

  // Such people exist: on a chain where a signature names its signer, say.
  lemma TheCastExists()
    ensures exists c: Chain, k: Cast :: Playing(c, k)
  {
    var c := Chain(1, _ => Zeros(32), _ => Zeros(32), _ => Zeros(4),
                   (d: Bytes32, v: Byte, r: Bytes32, s: Bytes32) => r[31], _ => []);
    var k := Cast(7, 6, NamedSigner(9), NamedSigner(8), NamedSigner(5), NamedSigner(1), NamedSigner(2), 3,
                  [10, 11, 12], 20, 21);
    forall g: Byte | g != 0 ensures HoldsKey(c, NamedSigner(g)) {
      BigEndianOfZero(32);
      Pow256Values();
      ValueOfBigEndian(0, 32);
    }
    assert Playing(c, k);
  }

  function NamedSigner(g: Byte): Signer {
    Signer(g, _ => Sig(27, Zeros(31) + [g], Zeros(32)))
  }

  // ---------------------------------------------------------------------------
  // A prepared account
  // ---------------------------------------------------------------------------

  // All blocks are early but those that end a recovery.
  function At(sender: Address, op: DirectOp): Block {
    Sends(sender, 5, op)
  }

  // The owner authorizes and registers the root and names its guardians; someone sends 5 wei.
  function Setup(k: Cast): seq<Block> {
    [At(k.owner, AuthorizeKey(k.r)), At(k.owner, RegisterProver(k.r)), At(k.owner, SetGuardians(k.r, k.guardians)),
     Block(5, Tx(k.anyone, 5, Plain(Receive)))]
  }

  function Prepared(k: Cast): State {
    Deployed(k.owner).(authorizedKeys := {k.r}, authorizedProvers := {k.r}, guardians := map[k.r := k.guardians],
                       balance := 5)
  }

  lemma {:induction false} RunAppend(c: Chain, s: State, a: seq<Block>, b: seq<Block>)
    ensures Run(c, s, a + b) == Run(c, Run(c, s, a), b)
    decreases |a|
  {
    hide Exec;
    if a == [] {
      assert a + b == b;
    } else {
      assert (a + b)[0] == a[0] && (a + b)[1..] == a[1..] + b;
      RunAppend(c, After(c, s, a[0]), a[1..], b);
    }
  }

  // One block more.
  lemma Extend(c: Chain, s: State, done: seq<Block>, b: Block)
    ensures Run(c, s, done + [b]) == After(c, Run(c, s, done), b)
  {
    RunAppend(c, s, done, [b]);
    hide Exec;
    assert [b][1..] == [];
  }

  // The states on the way.
  function Authorizing(k: Cast): State {
    Deployed(k.owner).(authorizedKeys := {k.r})
  }

  function Registering(k: Cast): State {
    Authorizing(k).(authorizedProvers := {k.r})
  }

  function Naming(k: Cast): State {
    Registering(k).(guardians := map[k.r := k.guardians])
  }

  lemma FirstSteps(c: Chain, k: Cast)
    ensures After(c, Deployed(k.owner), Setup(k)[0]) == Authorizing(k)
    ensures After(c, Authorizing(k), Setup(k)[1]) == Registering(k)
  {
  }

  lemma LastSteps(c: Chain, k: Cast)
    ensures After(c, Registering(k), Setup(k)[2]) == Naming(k)
    ensures After(c, Naming(k), Setup(k)[3]) == Prepared(k)
  {
  }

  lemma RunNone(c: Chain, s: State)
    ensures Run(c, s, []) == s
  {
  }

  lemma SetupPrepares(c: Chain, k: Cast)
    ensures Run(c, Deployed(k.owner), Setup(k)) == Prepared(k)
  {
    hide After, Run, Deployed, Prepared, Authorizing, Registering, Naming;
    var (b, d) := (Setup(k), Deployed(k.owner));
    FirstSteps(c, k);
    LastSteps(c, k);
    RunNone(c, d);
    Extend(c, d, [], b[0]);
    Extend(c, d, [b[0]], b[1]);
    Extend(c, d, [b[0], b[1]], b[2]);
    Extend(c, d, [b[0], b[1], b[2]], b[3]);
    assert [] + [b[0]] == [b[0]] && [b[0]] + [b[1]] == [b[0], b[1]] && [b[0], b[1]] + [b[2]] == [b[0], b[1], b[2]];
    assert [b[0], b[1], b[2]] + [b[3]] == b;
  }

  lemma ExtendSetup(c: Chain, k: Cast, b: Block)
    ensures Run(c, Deployed(k.owner), Setup(k) + [b]) == After(c, Prepared(k), b)
  {
    hide Run, After, Setup;
    SetupPrepares(c, k);
    Extend(c, Deployed(k.owner), Setup(k), b);
  }

  // ---------------------------------------------------------------------------
  // Certificates and intents
  // ---------------------------------------------------------------------------

  const SELECTOR: Bytes4 := [1, 2, 3, 4]

  // The root certifies the session key for calls to a target, without value; the key signs an intent for k.target.
  function Certificate(c: Chain, k: Cast, target: Address): Signed<Session> {
    var p := Session(k.key.address, k.r, SELECTOR, target, 0, 1000000, c.ShortId());
    Signed(p, k.root.sign(SessionMessage(p)))
  }

  function Order(c: Chain, k: Cast, hash: Bytes32, nonce: Uint64, claim: Bytes32, epoch: Uint64): Signed<Intent> {
    var p := Intent(k.target, SELECTOR, 0, 0, hash, 0, 1000000, c.ShortId(), nonce, epoch, 0, 0, 0,
                    claim, Zeros(32), 0, 0);
    Signed(p, k.key.sign(IntentMessage(p)))
  }

  // The root may act in s, as far as its own standing goes.
  predicate MayAct(s: State, k: Cast) {
    s.Status(k.r) == Active && k.r in s.authorizedKeys && k.key.address !in s.usedSessionKeys
  }

  lemma MayActIsAuthority(c: Chain, k: Cast, s: State, target: Address, hash: Bytes32, nonce: Uint64,
                          claim: Bytes32, epoch: Uint64)
    requires Playing(c, k) && MayAct(s, k) && s.Epoch(k.r) == epoch
    ensures Authorized(c, 5, s, Certificate(c, k, target), Order(c, k, hash, nonce, claim, epoch))
  {
    hide Recover;
    assert Signs(c, k.root, SessionMessage(Certificate(c, k, target).body));
    assert Signs(c, k.key, IntentMessage(Order(c, k, hash, nonce, claim, epoch).body));
  }

  // ---------------------------------------------------------------------------
  // execute without claim and nonce, and after cancelAllSessions
  // ---------------------------------------------------------------------------

  function UnheldClaim(): Bytes32 {
    Zeros(31) + [1]
  }

  lemma ClaimIsUnheld()
    ensures UnheldClaim() != Zeros(32)
  {
    assert UnheldClaim()[31] != Zeros(32)[31];
  }

  // An intent that names nonce 77 and a claim.
  function ClaimingOrder(c: Chain, k: Cast, epoch: Uint64): Signed<Intent> {
    Order(c, k, c.keccak(SELECTOR), 77, UnheldClaim(), epoch)
  }

  function ExecuteBlock(c: Chain, k: Cast, epoch: Uint64): Block {
    Block(5, Tx(k.anyone, 0, Execute(Certificate(c, k, k.target), ClaimingOrder(c, k, epoch), k.target, SELECTOR,
                                     Returns)))
  }

  predicate EndsExecuted(s: State, k: Cast) {
    s.log.Snoc? && s.log.last == Executed(k.key.address, k.r, k.target, SELECTOR, 0)
  }

  lemma ReturningCall(c: Chain, s: State, f: Frame, call: Call)
    requires f.todo == [call] && call.value == f.value
    ensures CallOut(c, 5, s.Open(f), call, Returns) == Some(s.Open(f).SendOut(call))
  {
  }

  lemma FrameEnds(s: State, f: Frame, call: Call)
    requires f.todo == [call] && call.value == f.value && f.kind.Execution?
    ensures var o := Finish(s.Open(f).SendOut(call), 0);
      && o.Ok? && o.st.log.Snoc?
      && o.st.log.last == Executed(f.session, f.parent, f.target, f.selector, f.value % TWO_128)
      && o.st.pendingNewRoot == s.pendingNewRoot && o.st.identityState == s.identityState
  {
    var sent := s.Open(f).SendOut(call);
    assert sent.frames == Push(f.(todo := f.todo[1..]), s.frames);
    assert Finish(sent, 0) == Ok(sent.Close(), 0);
  }

  lemma ExecuteGoesThrough(c: Chain, k: Cast, s: State, epoch: Uint64)
    requires Playing(c, k) && MayAct(s, k) && s.Epoch(k.r) == epoch
    ensures var t := After(c, s, ExecuteBlock(c, k, epoch));
      EndsExecuted(t, k) && t.Pending(k.r) == s.Pending(k.r) && t.Status(k.r) == Active
  {
    hide Authorized, HoldsKey, Playing, Finish, CallOut, UnheldClaim;
    var (session, intent) := (Certificate(c, k, k.target), ClaimingOrder(c, k, epoch));
    MayActIsAuthority(c, k, s, k.target, c.keccak(SELECTOR), 77, UnheldClaim(), epoch);
    ExecuteDemands(c, 5, s, 0, session, intent, k.target, SELECTOR);
    var call := Call(k.target, 0, SELECTOR);
    var frame := Frame(Execution, k.key.address, k.r, SELECTOR, k.target, 0, 0, [call]);
    assert EnterExecute(c, 5, s, 0, session, intent, k.target, SELECTOR) == Success(frame);
    hide EnterExecute;
    ReturningCall(c, s, frame, call);
    FrameEnds(s, frame, call);
  }

  /** execute commits for an account that holds no claims, under an intent that requires one and names nonce 77
      while the signer's nonce is 0. */
  lemma ExecuteWithoutClaimOrNonce(c: Chain, k: Cast)
    requires Playing(c, k)
    ensures var s := Run(c, Deployed(k.owner), Setup(k));
      && !s.HoldsClaim(k.r, ClaimingOrder(c, k, 0).body.requiredClaim)
      && s.Nonce(k.key.address) == 0 != ClaimingOrder(c, k, 0).body.nonce
      && EndsExecuted(Run(c, Deployed(k.owner), Setup(k) + [ExecuteBlock(c, k, 0)]), k)
  {
    hide Run, After, Setup, UnheldClaim, Playing, EndsExecuted;
    ClaimIsUnheld();
    SetupPrepares(c, k);
    ExtendSetup(c, k, ExecuteBlock(c, k, 0));
    ExecuteGoesThrough(c, k, Prepared(k), 0);
  }

  /** A certificate issued before cancelAllSessions of its root is good afterwards: an execute under it commits,
      with an intent of the new epoch. */
  lemma CertificateSurvivesCancelAllSessions(c: Chain, k: Cast)
    requires Playing(c, k)
    ensures var cut := Setup(k) + [At(k.r, CancelAllSessions(k.r))];
      && Run(c, Deployed(k.owner), cut).Epoch(k.r) == 1
      && EndsExecuted(Run(c, Deployed(k.owner), cut + [ExecuteBlock(c, k, 1)]), k)
  {
    hide Run, Setup, UnheldClaim, Playing, EndsExecuted, ExecuteBlock;
    var b := At(k.r, CancelAllSessions(k.r));
    ExtendSetup(c, k, b);
    PlainSettles(c, Prepared(k), b);
    hide After;
    Extend(c, Deployed(k.owner), Setup(k) + [b], ExecuteBlock(c, k, 1));
    ExecuteGoesThrough(c, k, After(c, Prepared(k), b), 1);
  }

  // ---------------------------------------------------------------------------
  // A delegated intent of a passed epoch
  // ---------------------------------------------------------------------------

  // The root delegates to the session key.
  function DelegationTo(c: Chain, k: Cast): Signed<Delegation> {
    var d := Delegation(k.key.address, SELECTOR, 0, 1000000, c.ShortId(), 0);
    Signed(d, k.root.sign(DelegationMessage(d)))
  }

  function DelegatedBlock(c: Chain, k: Cast): Block {
    At(k.anyone, ValidateDelegatedIntent(DelegationTo(c, k), Order(c, k, Zeros(32), 0, Zeros(32), 0)))
  }

  /** After cancelAllSessions of its signer, a delegated intent of the passed epoch is accepted. */
  lemma DelegatedIntentOfPassedEpoch(c: Chain, k: Cast)
    requires Playing(c, k)
    ensures var cancel := At(k.key.address, CancelAllSessions(k.key.address));
      var cut := Run(c, Deployed(k.owner), Setup(k) + [cancel]);
      var end := Run(c, Deployed(k.owner), Setup(k) + [cancel] + [DelegatedBlock(c, k)]);
      && cut.Epoch(k.key.address) == 1 != Order(c, k, Zeros(32), 0, Zeros(32), 0).body.sessionEpoch
      && end.log.Snoc? && end.log.last == DelegatedAccepted(k.r, k.key.address, 0, 0)
  {
    hide Run, Setup, Recover;
    var cancel := At(k.key.address, CancelAllSessions(k.key.address));
    ExtendSetup(c, k, cancel);
    PlainSettles(c, Prepared(k), cancel);
    hide After, ValidateDelegatedStep;
    var cut := After(c, Prepared(k), cancel);
    Extend(c, Deployed(k.owner), Setup(k) + [cancel], DelegatedBlock(c, k));
    PlainSettles(c, cut, DelegatedBlock(c, k));
    assert Signs(c, k.root, DelegationMessage(DelegationTo(c, k).body));
    assert Signs(c, k.key, IntentMessage(Order(c, k, Zeros(32), 0, Zeros(32), 0).body));
    DelegatedGoesThrough(c, k, cut);
  }

  lemma DelegatedGoesThrough(c: Chain, k: Cast, s: State)
    requires Signs(c, k.root, DelegationMessage(DelegationTo(c, k).body))
    requires Signs(c, k.key, IntentMessage(Order(c, k, Zeros(32), 0, Zeros(32), 0).body))
    requires k.r in s.authorizedProvers && s.DelegationNonce(k.r) == 0 && s.Nonce(k.key.address) == 0
    ensures var o := ValidateDelegatedStep(c, 5, s, 0, DelegationTo(c, k), Order(c, k, Zeros(32), 0, Zeros(32), 0));
      o.Ok? && o.st.log == Snoc(s.log, DelegatedAccepted(k.r, k.key.address, 0, 0))
  {
    hide Recover;
  }

  // ---------------------------------------------------------------------------
  // Acting with a recovery pending
  // ---------------------------------------------------------------------------

  // What a guardian signs in the first recovery.
  function Request(c: Chain, k: Cast): Message {
    RecoveryMessage(Recovery(k.r, k.heir.address, c.ShortId(), 0))
  }

  function InitiateTx(c: Chain, k: Cast, g: Signer): Tx {
    Tx(k.anyone, 0, Plain(InitiateRecovery(k.r, k.heir.address, g.sign(Request(c, k)))))
  }

  lemma InitiateGoesThrough(c: Chain, k: Cast, s: State, g: Signer)
    requires Playing(c, k) && HoldsKey(c, g)
    requires k.r in s.authorizedProvers && s.Pending(k.r) == 0 && s.RecoveryNonce(k.r) == 0
    requires g.address in s.Guardians(k.r)
    ensures var o := Exec(c, 5, s, InitiateTx(c, k, g));
      && o.Ok? && o.data == 0 && o.st.Pending(k.r) == k.heir.address && o.st.Status(k.r) == RecoveryPending
      && o.st.Flags(k.r) == s.Flags(k.r) + {g.address} && o.st.Guardians(k.r) == s.Guardians(k.r)
      && o.st.RecoveryNonce(k.r) == 0 && o.st.Approvals(k.r) == 1
      && o.st.frames == s.frames && o.st.balance == s.balance && o.st.owner == s.owner
      && o.st.authorizedKeys == s.authorizedKeys && o.st.authorizedProvers == s.authorizedProvers
      && o.st.usedSessionKeys == s.usedSessionKeys && o.st.sessionEpoch == s.sessionEpoch
      && o.st.log.Snoc? && o.st.log.before == s.log && o.st.log.last.Approved? && o.st.log.last.root == k.r
      && o.st.log.last.approval.guardian == g.address
  {
    hide Recover;
    assert Signs(c, g, Request(c, k));
    assert RecoveryRequest(c, s, k.r, k.heir.address) == Request(c, k);
  }

  // The root is in recovery and could act if it were Active.
  predicate HeldBack(s: State, k: Cast) {
    && s.owner == k.owner && s.Pending(k.r) == k.heir.address && k.r in s.authorizedKeys
    && k.key.address !in s.usedSessionKeys && s.Epoch(k.r) == 0
  }

  lemma Freezes(c: Chain, k: Cast, s: State)
    requires HeldBack(s, k)
    ensures var t := After(c, s, At(k.owner, FreezeIdentity(k.r))); HeldBack(t, k) && t.Status(k.r) == Frozen
  {
  }

  lemma Unfreezes(c: Chain, k: Cast, s: State)
    requires HeldBack(s, k) && s.Status(k.r) == Frozen
    ensures var t := After(c, s, At(k.owner, UnfreezeIdentity(k.r))); HeldBack(t, k) && MayAct(t, k)
  {
  }

  // Initiate a recovery of the root, freeze it, unfreeze it, execute for it.
  function ReleasedRun(c: Chain, k: Cast): seq<Block> {
    Setup(k) + [Block(5, InitiateTx(c, k, k.g1))] + [At(k.owner, FreezeIdentity(k.r))]
    + [At(k.owner, UnfreezeIdentity(k.r))] + [ExecuteBlock(c, k, 0)]
  }

  // An execute of the root commits while its recovery is pending, after the owner froze and unfroze it.
  lemma ExecuteWhileRecoveryPends(c: Chain, k: Cast)
    requires Playing(c, k)
    ensures var s := Run(c, Deployed(k.owner), ReleasedRun(c, k));
      EndsExecuted(s, k) && s.Pending(k.r) == k.heir.address != 0 && s.Status(k.r) == Active
  {
    var d := Deployed(k.owner);
    var b := [Block(5, InitiateTx(c, k, k.g1)), At(k.owner, FreezeIdentity(k.r)), At(k.owner, UnfreezeIdentity(k.r)),
              ExecuteBlock(c, k, 0)];
    InitiateGoesThrough(c, k, Prepared(k), k.g1);
    var s1 := After(c, Prepared(k), b[0]);
    assert HeldBack(s1, k);
    hide After, Run, Setup, ExecuteBlock, EndsExecuted, HeldBack, InitiateTx;
    Freezes(c, k, s1);
    var s2 := After(c, s1, b[1]);
    Unfreezes(c, k, s2);
    var s3 := After(c, s2, b[2]);
    assert s3.Epoch(k.r) == 0 && s3.Pending(k.r) == k.heir.address by { StillHeldBack(s3, k); }
    ExecuteGoesThrough(c, k, s3, 0);
    ExtendSetup(c, k, b[0]);
    Extend(c, d, Setup(k) + [b[0]], b[1]);
    Extend(c, d, Setup(k) + [b[0]] + [b[1]], b[2]);
    Extend(c, d, Setup(k) + [b[0]] + [b[1]] + [b[2]], b[3]);
  }

  lemma StillHeldBack(s: State, k: Cast)
    requires HeldBack(s, k)
    ensures s.Epoch(k.r) == 0 && s.Pending(k.r) == k.heir.address
  {
  }

  // ---------------------------------------------------------------------------
  // A multicall overtaken by a recovery
  // ---------------------------------------------------------------------------

  // A call with data that does not begin with the certified selector.
  function CallWith(k: Cast, value: Uint256): Call {
    Call(k.target, value, [9, 9, 9, 9])
  }

  // Two calls, of which the first re-enters with an initiateRecovery of the root that acts.
  function OvertakenBatch(c: Chain, k: Cast): seq<Invocation> {
    [Invocation(CallWith(k, 0), Then(InitiateTx(c, k, k.g1), Returns))] + [Invocation(CallWith(k, 0), Returns)]
  }

  // The certificate is for another contract than the one called.
  function BatchOrder(c: Chain, k: Cast, batch: seq<Invocation>): Signed<Intent> {
    Order(c, k, c.keccak(c.encodeCalls(CallsOf(batch))), 0, Zeros(32), 0)
  }

  function MulticallBlock(c: Chain, k: Cast, batch: seq<Invocation>): Block {
    Block(5, Tx(k.anyone, 0, ExecuteMulticall(Certificate(c, k, k.elsewhere), BatchOrder(c, k, batch), batch)))
  }

  function FrameOf(k: Cast, batch: seq<Invocation>): Frame {
    Frame(Multicall, k.key.address, k.r, SELECTOR, k.target, 0, 0, CallsOf(batch))
  }

  // A multicall of the root amounts to its batch.
  lemma MulticallIsItsBatch(c: Chain, k: Cast, s: State, batch: seq<Invocation>)
    requires Playing(c, k) && MayAct(s, k) && s.Epoch(k.r) == 0
    ensures Exec(c, 5, s, MulticallBlock(c, k, batch).tx)
            == ExecBatch(c, 5, s.Open(FrameOf(k, batch)), k.target, batch, 0)
  {
    hide Authorized, EnterMulticall, ExecBatch, Playing;
    var (session, intent) := (Certificate(c, k, k.elsewhere), BatchOrder(c, k, batch));
    MayActIsAuthority(c, k, s, k.elsewhere, c.keccak(c.encodeCalls(CallsOf(batch))), 0, Zeros(32), 0);
    MulticallDemands(c, 5, s, 0, session, intent, CallsOf(batch));
    MulticallOpensFrame(c, 5, s, 0, session, intent, CallsOf(batch));
  }

  lemma CallsOfTwo(i: Invocation, j: Invocation)
    ensures CallsOf([i] + [j]) == [i.call, j.call]
  {
    assert ([i] + [j])[1..] == [j] && [j][1..] == [];
    assert CallsOf([j]) == [j.call] + CallsOf([]);
    assert CallsOf([i] + [j]) == [i.call] + CallsOf([j]);
  }

  lemma BatchOfOne(c: Chain, now: Timestamp, s: State, target: Address, i: Invocation, index: nat, t: State)
    requires i.call.target == target && Invoke(c, now, s, i) == Some(t)
    ensures ExecBatch(c, now, s, target, [i], index) == Finish(t, 0)
  {
    hide Invoke;
    assert [i][0] == i && [i][1..] == [];
    assert ExecBatch(c, now, t, target, [], index + 1) == Finish(t, 0);
  }

  lemma BatchOfTwo(c: Chain, now: Timestamp, s: State, target: Address, i: Invocation, j: Invocation,
                   s1: State, s2: State)
    requires i.call.target == target == j.call.target
    requires Invoke(c, now, s, i) == Some(s1) && Invoke(c, now, s1, j) == Some(s2)
    ensures ExecBatch(c, now, s, target, [i] + [j], 0) == Finish(s2, 0)
  {
    hide Invoke, Finish;
    var batch := [i] + [j];
    assert batch[0] == i && batch[1..] == [j];
    BatchOfOne(c, now, s1, target, j, 1, s2);
  }

  lemma ReturnsAtOnce(c: Chain, s: State, call: Call)
    requires call.value <= s.balance && s.frames.Push?
    ensures Invoke(c, 5, s, Invocation(call, Returns)) == Some(s.SendOut(call))
  {
  }

  lemma ReentersOnce(c: Chain, s: State, call: Call, tx: Tx, t: State)
    requires call.value <= s.balance && s.frames.Push? && Exec(c, 5, s.SendOut(call), tx) == Ok(t, 0)
    ensures Invoke(c, 5, s, Invocation(call, Then(tx, Returns))) == Some(t)
  {
    hide Exec;
    assert Answer(c, 5, t, Returns) == Some(t);
    assert Answer(c, 5, s.SendOut(call), Then(tx, Returns)) == Some(t);
  }

  // The last events: call out, approval, call out, completion.
  predicate EndsOvertaken(log: History, k: Cast) {
    var sent := CalledOut(1, Multicall, k.key.address, CallWith(k, 0));
    && log.Snoc? && log.last == MulticallExecuted(k.key.address, k.r, SELECTOR)
    && log.before.Snoc? && log.before.last == sent
    && log.before.before.Snoc? && log.before.before.last.Approved? && log.before.before.last.root == k.r
    && log.before.before.before.Snoc? && log.before.before.before.last == sent
  }

  // The multicall's frame with these calls left.
  predicate InMulticall(s: State, k: Cast, todo: seq<Call>) {
    s.frames == Push(Frame(Multicall, k.key.address, k.r, SELECTOR, k.target, 0, 0, todo), Idle)
  }

  lemma Sending(s: State, k: Cast, call: Call, todo: seq<Call>)
    requires InMulticall(s, k, [call] + todo) && call.value <= s.balance
    ensures var t := s.SendOut(call);
      InMulticall(t, k, todo) && t.log == Snoc(s.log, CalledOut(1, Multicall, k.key.address, call))
  {
    assert ([call] + todo)[1..] == todo;
    assert s.frames.Depth() == 1;
  }

  lemma OvertakenCalls(c: Chain, k: Cast, s: State)
    requires Playing(c, k) && InMulticall(s, k, [CallWith(k, 0)] + [CallWith(k, 0)])
    requires k.r in s.authorizedProvers && s.Pending(k.r) == 0 && s.RecoveryNonce(k.r) == 0
    requires s.Guardians(k.r) == k.guardians
    ensures var o := ExecBatch(c, 5, s, k.target, OvertakenBatch(c, k), 0);
      && o.Ok? && o.st.Status(k.r) == RecoveryPending && o.st.Pending(k.r) == k.heir.address
      && EndsOvertaken(o.st.log, k)
  {
    hide Exec, Invoke, ExecBatch, InitiateTx, HoldsKey;
    var call := CallWith(k, 0);
    Sending(s, k, call, [call]);
    var sent := s.SendOut(call);
    InitiateGoesThrough(c, k, sent, k.g1);
    var s1 := Exec(c, 5, sent, InitiateTx(c, k, k.g1)).st;
    ReentersOnce(c, s, call, InitiateTx(c, k, k.g1), s1);
    assert [call] + [] == [call];
    Sending(s1, k, call, []);
    ReturnsAtOnce(c, s1, call);
    BatchOfTwo(c, 5, s, k.target, Invocation(call, Then(InitiateTx(c, k, k.g1), Returns)), Invocation(call, Returns),
               s1, s1.SendOut(call));
  }

  /** A multicall whose first call re-enters with a recovery of its own root goes on while the root is in recovery:
      the second call is made and the multicall commits after the approval. */
  lemma MulticallOutlivesSuspension(c: Chain, k: Cast)
    requires Playing(c, k)
    ensures var s := Run(c, Deployed(k.owner), Setup(k) + [MulticallBlock(c, k, OvertakenBatch(c, k))]);
      s.Status(k.r) == RecoveryPending && s.Pending(k.r) == k.heir.address && EndsOvertaken(s.log, k)
  {
    hide Exec, ExecBatch, Run, EndsOvertaken, Setup, InitiateTx, Playing;
    var batch := OvertakenBatch(c, k);
    MulticallIsItsBatch(c, k, Prepared(k), batch);
    CallsOfTwo(batch[0], batch[1]);
    assert [CallWith(k, 0)] + [CallWith(k, 0)] == [CallWith(k, 0), CallWith(k, 0)];
    OvertakenCalls(c, k, Prepared(k).Open(FrameOf(k, batch)));
    ExtendSetup(c, k, MulticallBlock(c, k, batch));
  }

  // ---------------------------------------------------------------------------
  // A multicall above its cap
  // ---------------------------------------------------------------------------

  function CostlyBatch(k: Cast): seq<Invocation> {
    [Invocation(CallWith(k, 2), Returns)] + [Invocation(CallWith(k, 3), Returns)]
  }

  lemma CostlyCalls(c: Chain, k: Cast, s: State)
    requires InMulticall(s, k, [CallWith(k, 2)] + [CallWith(k, 3)]) && s.balance == 5
    ensures var o := ExecBatch(c, 5, s, k.target, CostlyBatch(k), 0);
      && o.Ok? && o.st.balance == 0 && o.st.log.Snoc? && o.st.log.last == MulticallExecuted(k.key.address, k.r, SELECTOR)
      && o.st.log.before == Snoc(Snoc(s.log, CalledOut(1, Multicall, k.key.address, CallWith(k, 2))),
                                 CalledOut(1, Multicall, k.key.address, CallWith(k, 3)))
  {
    hide Invoke, ExecBatch;
    var s1 := s.SendOut(CallWith(k, 2));
    var s2 := s1.SendOut(CallWith(k, 3));
    Sending(s, k, CallWith(k, 2), [CallWith(k, 3)]);
    assert [CallWith(k, 3)] + [] == [CallWith(k, 3)];
    Sending(s1, k, CallWith(k, 3), []);
    ReturnsAtOnce(c, s, CallWith(k, 2));
    ReturnsAtOnce(c, s1, CallWith(k, 3));
    BatchOfTwo(c, 5, s, k.target, Invocation(CallWith(k, 2), Returns), Invocation(CallWith(k, 3), Returns), s1, s2);
  }

  /** A multicall commits and sends 5 wei of the account although its certificate has cap 0, and is for another
      contract and another selector. */
  lemma MulticallAboveItsCap(c: Chain, k: Cast)
    requires Playing(c, k)
    ensures var session := Certificate(c, k, k.elsewhere).body;
      var end := Run(c, Deployed(k.owner), Setup(k) + [MulticallBlock(c, k, CostlyBatch(k))]);
      && Run(c, Deployed(k.owner), Setup(k)).balance == 5 && end.balance == 0
      && ToSend(SentAt(end.log, 1)) == 5 > session.maxValue
      && (forall call :: call in CallsOf(CostlyBatch(k)) ==>
            call.target != session.target && |call.data| >= 4 && call.data[..4] != session.scope)
      && end.log.Snoc? && end.log.last == MulticallExecuted(k.key.address, k.r, SELECTOR)
  {
    hide Exec, ExecBatch, Run, Setup, HoldsKey;
    var batch := CostlyBatch(k);
    SetupPrepares(c, k);
    MulticallIsItsBatch(c, k, Prepared(k), batch);
    CallsOfTwo(batch[0], batch[1]);
    assert [CallWith(k, 2)] + [CallWith(k, 3)] == [CallWith(k, 2), CallWith(k, 3)];
    CostlyCalls(c, k, Prepared(k).Open(FrameOf(k, batch)));
    ExtendSetup(c, k, MulticallBlock(c, k, batch));
    SumOfCostly(k, ExecBatch(c, 5, Prepared(k).Open(FrameOf(k, batch)), k.target, batch, 0).st.log, FrameOf(k, batch));
    assert [9, 9, 9, 9][..4][0] == 9;
  }

  lemma SumOfCostly(k: Cast, log: History, f: Frame)
    requires log.Snoc? && !log.last.CalledOut?
    requires log.before == Snoc(Snoc(Snoc(Start, Opened(f)), CalledOut(1, Multicall, k.key.address, CallWith(k, 2))),
                                CalledOut(1, Multicall, k.key.address, CallWith(k, 3)))
    ensures ToSend(SentAt(log, 1)) == 5
  {
    var atOpen := Snoc(Start, Opened(f));
    var once := Snoc(atOpen, CalledOut(1, Multicall, k.key.address, CallWith(k, 2)));
    assert SentAt(atOpen, 1) == [];
    assert SentAt(once, 1) == [CallWith(k, 2)];
    assert SentAt(log.before, 1) == [CallWith(k, 2), CallWith(k, 3)] == SentAt(log, 1);
    assert SentAt(log, 1)[1..] == [CallWith(k, 3)] && [CallWith(k, 3)][1..] == [];
    assert ToSend([CallWith(k, 3)]) == 3;
  }

  // ---------------------------------------------------------------------------
  // Flags and signatures that outlive a round
  // ---------------------------------------------------------------------------

  // What the runs below need to know about the root between their steps.
  predicate Facts(s: State, k: Cast, list: seq<Address>, pending: Address, flags: set<Address>, approvers: set<Address>) {
    && s.owner == k.owner && k.r in s.authorizedProvers && s.Guardians(k.r) == list && s.Pending(k.r) == pending
    && s.Flags(k.r) == flags && s.Approvals(k.r) <= 1 && s.RecoveryNonce(k.r) == 0
    && (pending == 0 ==> Round(s.log, k.r) == []) && Approvers(Round(s.log, k.r)) == approvers
  }

  lemma GuardiansChange(c: Chain, k: Cast, s: State, list: seq<Address>, pending: Address, flags: set<Address>,
                        approvers: set<Address>, next: seq<Address>)
    requires Facts(s, k, list, pending, flags, approvers) && |next| == 3
    ensures Facts(After(c, s, At(k.owner, SetGuardians(k.r, next))), k, next, pending, flags, approvers)
  {
  }

  lemma GuardianInitiates(c: Chain, k: Cast, s: State, list: seq<Address>, flags: set<Address>, g: Signer)
    requires Playing(c, k) && HoldsKey(c, g) && Facts(s, k, list, 0, flags, {}) && g.address in list
    ensures Facts(After(c, s, Block(5, InitiateTx(c, k, g))), k, list, k.heir.address, flags + {g.address}, {g.address})
  {
    hide Exec, InitiateTx, HoldsKey;
    InitiateGoesThrough(c, k, s, g);
    ApproversGrow(Round(s.log, k.r), Exec(c, 5, s, InitiateTx(c, k, g)).st.log.last.approval);
  }

  lemma RootCancels(c: Chain, k: Cast, s: State, list: seq<Address>, flags: set<Address>, approvers: set<Address>)
    requires k.heir.address != 0 && Facts(s, k, list, k.heir.address, flags, approvers)
    ensures Facts(After(c, s, At(k.r, CancelRecovery(k.r))), k, list, 0, flags - (set g | g in list), {})
  {
    ClearFlagsOf(s.recoveryApproved, k.r, list, k.r);
    hide ClearFlags;
  }

  // Start a recovery, change the guardians, cancel, change them back, start again.
  function StaleRun(c: Chain, k: Cast): seq<Block> {
    Setup(k) + [Block(5, InitiateTx(c, k, k.g1))] + [At(k.owner, SetGuardians(k.r, k.others))]
    + [At(k.r, CancelRecovery(k.r))] + [At(k.owner, SetGuardians(k.r, k.guardians))] + [Block(5, InitiateTx(c, k, k.g2))]
  }

  // Start a recovery, change the guardians, cancel: the flag of the first guardian is left over.
  lemma FlagOutlivesCancel(c: Chain, k: Cast)
    requires Playing(c, k)
    ensures var done := Setup(k) + [Block(5, InitiateTx(c, k, k.g1))] + [At(k.owner, SetGuardians(k.r, k.others))]
                        + [At(k.r, CancelRecovery(k.r))];
            Facts(Run(c, Deployed(k.owner), done), k, k.others, 0, {k.g1.address}, {})
  {
    assert Facts(Prepared(k), k, k.guardians, 0, {}, {});
    hide After, Facts, HoldsKey, Setup, Run, InitiateTx;
    var d := Deployed(k.owner);
    var (b1, b2, b3) := (Block(5, InitiateTx(c, k, k.g1)), At(k.owner, SetGuardians(k.r, k.others)),
                         At(k.r, CancelRecovery(k.r)));
    var (g1, heir) := (k.g1.address, k.heir.address);
    GuardianInitiates(c, k, Prepared(k), k.guardians, {}, k.g1);
    var s1 := After(c, Prepared(k), b1);
    assert {} + {g1} == {g1};
    GuardiansChange(c, k, s1, k.guardians, heir, {g1}, {g1}, k.others);
    var s2 := After(c, s1, b2);
    RootCancels(c, k, s2, k.others, {g1}, {g1});
    assert {g1} - (set g | g in k.others) == {g1};
    ExtendSetup(c, k, b1);
    Extend(c, d, Setup(k) + [b1], b2);
    Extend(c, d, Setup(k) + [b1] + [b2], b3);
  }

  lemma StaleRunReaches(c: Chain, k: Cast)
    requires Playing(c, k)
    ensures Facts(Run(c, Deployed(k.owner), StaleRun(c, k)), k, k.guardians, k.heir.address,
                  {k.g1.address, k.g2.address}, {k.g2.address})
  {
    hide After, Facts, HoldsKey, Setup, Run, InitiateTx;
    var d := Deployed(k.owner);
    var done := Setup(k) + [Block(5, InitiateTx(c, k, k.g1))] + [At(k.owner, SetGuardians(k.r, k.others))]
                + [At(k.r, CancelRecovery(k.r))];
    var (b4, b5) := (At(k.owner, SetGuardians(k.r, k.guardians)), Block(5, InitiateTx(c, k, k.g2)));
    var (g1, g2) := (k.g1.address, k.g2.address);
    FlagOutlivesCancel(c, k);
    var s3 := Run(c, d, done);
    GuardiansChange(c, k, s3, k.others, 0, {g1}, {}, k.guardians);
    var s4 := After(c, s3, b4);
    GuardianInitiates(c, k, s4, k.guardians, {g1}, k.g2);
    assert {g1} + {g2} == {g1, g2};
    Extend(c, d, done, b4);
    Extend(c, d, done + [b4], b5);
  }

  /** A run in which the first guardian is turned away with AlreadyApproved although it has not approved in the current
      round: its flag survived a cancel that followed a change of the guardian list. */
  lemma StaleFlagTurnsGuardianAway(c: Chain, k: Cast, now: Timestamp)
    requires Playing(c, k)
    ensures var s := Run(c, Deployed(k.owner), StaleRun(c, k));
      && k.g1.address in s.Guardians(k.r) && s.Pending(k.r) != 0
      && k.g1.address !in Approvers(Round(s.log, k.r))
      && SupportRecoveryStep(c, now, s, k.r, k.g1.sign(Request(c, k))) == Reverted(AlreadyApproved)
  {
    hide Recover, Run, StaleRun, SupportRecoveryStep;
    StaleRunReaches(c, k);
    var s := Run(c, Deployed(k.owner), StaleRun(c, k));
    assert Signs(c, k.g1, Request(c, k));
    assert RecoveryRequest(c, s, k.r, s.Pending(k.r)) == Request(c, k);
    SupportNeedsClearFlag(c, now, s, k.r, k.g1.address, k.g1.sign(Request(c, k)));
  }

  // The same transaction, with the same signature, starts a recovery before and after a cancel.
  lemma CancelledSignatureStartsAgain(c: Chain, k: Cast)
    requires Playing(c, k)
    ensures var (start, cancel) := (Block(5, InitiateTx(c, k, k.g1)), At(k.r, CancelRecovery(k.r)));
      && Run(c, Deployed(k.owner), Setup(k) + [start]).Pending(k.r) == k.heir.address != 0
      && Run(c, Deployed(k.owner), Setup(k) + [start] + [cancel]).Pending(k.r) == 0
      && Run(c, Deployed(k.owner), Setup(k) + [start] + [cancel] + [start]).Pending(k.r) == k.heir.address
  {
    assert Facts(Prepared(k), k, k.guardians, 0, {}, {});
    hide After, HoldsKey, Setup, Run, InitiateTx;
    var (start, cancel, d) := (Block(5, InitiateTx(c, k, k.g1)), At(k.r, CancelRecovery(k.r)), Deployed(k.owner));
    var g1 := k.g1.address;
    GuardianInitiates(c, k, Prepared(k), k.guardians, {}, k.g1);
    var s1 := After(c, Prepared(k), start);
    assert {} + {g1} == {g1};
    RootCancels(c, k, s1, k.guardians, {g1}, {g1});
    assert {g1} - (set g | g in k.guardians) == {};
    var s2 := After(c, s1, cancel);
    GuardianInitiates(c, k, s2, k.guardians, {}, k.g1);
    ExtendSetup(c, k, start);
    Extend(c, d, Setup(k) + [start], cancel);
    Extend(c, d, Setup(k) + [start] + [cancel], start);
  }

  // ---------------------------------------------------------------------------
  // An intent accepted twice
  // ---------------------------------------------------------------------------

  // An intent of the heir, with nonce 0.
  function HeirsIntent(c: Chain, k: Cast): Signed<Intent> {
    var p := Intent(k.target, SELECTOR, 0, 0, Zeros(32), 0, 1000000, c.ShortId(), 0, 0, 0, 0, 0,
                    Zeros(32), Zeros(32), 0, 0);
    Signed(p, k.heir.sign(IntentMessage(p)))
  }

  function RecoverySchedule(c: Chain, k: Cast): seq<Block> {
    Schedule(k.r, k.heir.address, k.g1.sign(Request(c, k)), k.g2.sign(Request(c, k)), k.anyone, 5, 5, 172805)
  }

  // Authorize the heir as a key; accept its intent; let it replace the root; accept the intent again.
  function RepeatedRun(c: Chain, k: Cast): seq<Block> {
    Setup(k) + [At(k.owner, AuthorizeKey(k.heir.address))] + [At(k.anyone, ValidateIntent(HeirsIntent(c, k)))]
    + RecoverySchedule(c, k) + [Sends(k.anyone, 172805, ValidateIntent(HeirsIntent(c, k)))]
  }

  // The account before the heir's recovery, its intent accepted already.
  predicate Awaits(s: State, k: Cast) {
    && k.r in s.authorizedProvers && k.heir.address in s.authorizedKeys && s.Guardians(k.r) == k.guardians
    && s.Pending(k.r) == 0 && s.Flags(k.r) == {} && s.RecoveryNonce(k.r) == 0 && s.Epoch(k.heir.address) == 0
    && TimesAccepted(s.log, k.heir.address, 0) == 1
  }

  lemma FirstAcceptance(c: Chain, k: Cast)
    requires Playing(c, k)
    ensures var s := After(c, Prepared(k), At(k.owner, AuthorizeKey(k.heir.address)));
      Awaits(After(c, s, At(k.anyone, ValidateIntent(HeirsIntent(c, k)))), k)
  {
    hide Recover, HoldsKey;
    var (b1, b2) := (At(k.owner, AuthorizeKey(k.heir.address)), At(k.anyone, ValidateIntent(HeirsIntent(c, k))));
    var s := Prepared(k).(authorizedKeys := {k.r} + {k.heir.address});
    PlainSettles(c, Prepared(k), b1);
    assert After(c, Prepared(k), b1) == s;
    hide After;
    PlainSettles(c, s, b2);
    TheySign(c, k);
    AcceptanceCounts(c, 5, s, HeirsIntent(c, k), k.heir.address);
    assert ValidateIntentStep(c, 5, s, 0, HeirsIntent(c, k)).Ok?;
  }

  // A recovery step leaves keys and epochs alone and accepts no intent.
  predicate Leaves(s: State, t: State) {
    && t.authorizedKeys == s.authorizedKeys && t.sessionEpoch == s.sessionEpoch
    && t.log.Snoc? && t.log.before == s.log && Accepts(t.log.last).None?
  }

  lemma LeavesCount(s: State, t: State, a: Address)
    requires Leaves(s, t)
    ensures TimesAccepted(t.log, a, 0) == TimesAccepted(s.log, a, 0)
  {
  }

  lemma InitiateLeaves(c: Chain, s: State, now: Timestamp, r: Address, newRoot: Address, sig: Sig)
    ensures var o := InitiateRecoveryStep(c, now, s, r, newRoot, sig);
            o.Ok? ==> Leaves(s, o.st) && o.st.Pending(r) == newRoot
  {
    hide Recover;
  }

  lemma SupportLeaves(c: Chain, s: State, now: Timestamp, r: Address, sig: Sig)
    ensures var o := SupportRecoveryStep(c, now, s, r, sig); o.Ok? ==> Leaves(s, o.st) && o.st.Pending(r) == s.Pending(r)
  {
    hide Recover;
  }

  lemma FinalizeLeaves(s: State, now: Timestamp, r: Address)
    ensures var o := FinalizeRecoveryStep(now, s, r); o.Ok? ==> Leaves(s, o.st)
  {
    hide ClearFlags;
  }

  lemma SecondAcceptance(c: Chain, k: Cast, s: State)
    requires Playing(c, k) && RoundKept(c, s, k.r) && Awaits(s, k)
    ensures var t := Run(c, s, RecoverySchedule(c, k));
      var end := After(c, t, Sends(k.anyone, 172805, ValidateIntent(HeirsIntent(c, k))));
      TimesAccepted(end.log, k.heir.address, 0) == 2
  {
    hide Recover, RoundKept, HoldsKey, Run, After, TimesAccepted;
    hide InitiateRecoveryStep, SupportRecoveryStep, FinalizeRecoveryStep;
    var (r, heir, m) := (k.r, k.heir.address, Request(c, k));
    var (sig1, sig2) := (k.g1.sign(m), k.g2.sign(m));
    TheySign(c, k);
    assert RecoveryRequest(c, s, r, heir) == m;
    TwoGuardiansCanRecover(c, s, r, heir, k.g1.address, sig1, k.g2.address, sig2, 5, 5, 172805);
    ScheduleRuns(c, s, r, heir, sig1, sig2, k.anyone, 5, 5, 172805);
    var s1 := InitiateRecoveryStep(c, 5, s, r, heir, sig1).st;
    var s2 := SupportRecoveryStep(c, 5, s1, r, sig2).st;
    InitiateLeaves(c, s, 5, r, heir, sig1);
    SupportLeaves(c, s1, 5, r, sig2);
    FinalizeLeaves(s2, 172805, r);
    var (s3, p, again) := (FinalizeRecoveryStep(172805, s2, r).st, HeirsIntent(c, k),
                           Sends(k.anyone, 172805, ValidateIntent(HeirsIntent(c, k))));
    assert s2.Pending(r) == heir && s2.Epoch(heir) == 0 && heir in s2.authorizedKeys;
    LeavesCount(s, s1, heir);
    LeavesCount(s1, s2, heir);
    LeavesCount(s2, s3, heir);
    InstalledRootStartsOver(c, 172805, s2, r, 172805, 0, p);
    assert ValidateIntentStep(c, 172805, s3, 0, p).Ok?;
    PlainSettles(c, s3, again);
    AcceptanceCounts(c, 172805, s3, p, heir);
  }

  lemma TheySign(c: Chain, k: Cast)
    requires Playing(c, k)
    ensures Recover(c, Request(c, k), k.g1.sign(Request(c, k))) == Success(k.g1.address)
    ensures Recover(c, Request(c, k), k.g2.sign(Request(c, k))) == Success(k.g2.address)
    ensures Recover(c, IntentMessage(HeirsIntent(c, k).body), HeirsIntent(c, k).sig) == Success(k.heir.address)
  {
    hide Recover;
    assert Signs(c, k.g1, Request(c, k)) && Signs(c, k.g2, Request(c, k));
    assert Signs(c, k.heir, IntentMessage(HeirsIntent(c, k).body));
  }

  lemma AcceptanceCounts(c: Chain, now: Timestamp, s: State, p: Signed<Intent>, a: Address)
    requires Recover(c, IntentMessage(p.body), p.sig) == Success(a) && p.body.nonce == 0
    ensures var o := ValidateIntentStep(c, now, s, 0, p);
            o.Ok? ==> TimesAccepted(o.st.log, a, 0) == TimesAccepted(s.log, a, 0) + 1
  {
    hide Recover;
  }

  // One signed intent is accepted twice, before and after its signer replaces the root.
  lemma IntentAcceptedTwice(c: Chain, k: Cast)
    requires Playing(c, k)
    ensures TimesAccepted(Run(c, Deployed(k.owner), RepeatedRun(c, k)).log, k.heir.address, 0) == 2
  {
    hide Run, After, Setup, HoldsKey, Awaits, RoundKept, TimesAccepted, RecoverySchedule;
    var d := Deployed(k.owner);
    var b := [At(k.owner, AuthorizeKey(k.heir.address)), At(k.anyone, ValidateIntent(HeirsIntent(c, k))),
              Sends(k.anyone, 172805, ValidateIntent(HeirsIntent(c, k)))];
    var before := Setup(k) + [b[0]] + [b[1]];
    ExtendSetup(c, k, b[0]);
    Extend(c, d, Setup(k) + [b[0]], b[1]);
    FirstAcceptance(c, k);
    RunsKeepRecovery(c, k.owner, before, k.r);
    SecondAcceptance(c, k, Run(c, d, before));
    RunAppend(c, d, before, RecoverySchedule(c, k));
    Extend(c, d, before + RecoverySchedule(c, k), b[2]);
  }
}
