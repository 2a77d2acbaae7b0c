/** What a signature is good for: one request of one contract, and for a recovery, one finalization. */
module RecoveryReplay {
  import opened Base
  import opened TypedData
  import opened Storage
  import opened IdentityStore
  import opened Execution
  import opened RecoverySafety

  // ---------------------------------------------------------------------------
  // One digest, one request
  // ---------------------------------------------------------------------------

  // The contract takes m, signed over this digest, to come from a.
  predicate Accepts(c: Chain, digest: Bytes32, m: Message, sig: Sig, a: Address) {
    digest == c.digestOf(m) && Recover(c, m, sig) == Success(a)
  }

  // What a deployed contract recovers a signer from is the EIP-712 digest of the message under its own domain.
  lemma SignersSignTheDigest(c: Chain, self: Address, m: Message, sig: Sig, a: Address)
    requires IsContractAt(c, self) && Recover(c, m, sig) == Success(a)
    ensures a != 0 && c.ecrecover(Digest(c.keccak, Domain(c.chainId, self), m), sig.v, sig.r, sig.s) == a
  {
    hide Digest;
    ContractDigest(c, self, m);
  }

  /** A signed digest that deployed contracts accept for two messages is accepted for the same message by the
      same contract, or the hash has collided: no signature over an intent, certificate, delegation
      or recovery serves for another one, on another chain, or elsewhere. */
  lemma DigestServesOneRequest(c1: Chain, self1: Address, c2: Chain, self2: Address, digest: Bytes32,
                               m1: Message, sig1: Sig, a1: Address, m2: Message, sig2: Sig, a2: Address)
    requires IsContractAt(c1, self1) && IsContractAt(c2, self2) && c1.keccak == c2.keccak
    requires Accepts(c1, digest, m1, sig1, a1) && Accepts(c2, digest, m2, sig2, a2)
    ensures || (m1 == m2 && c1.chainId == c2.chainId && self1 == self2)
            || Collides(c1.keccak, CollisionOf(c1.keccak, Domain(c1.chainId, self1), m1, Domain(c2.chainId, self2), m2))
  {
    ContractDigest(c1, self1, m1);
    ContractDigest(c2, self2, m2);
    hide Digest, CollisionOf, Collides, Recover, IsContractAt;
    DigestBindsEveryField(c1.keccak, Domain(c1.chainId, self1), m1, Domain(c2.chainId, self2), m2);
  }

  // ---------------------------------------------------------------------------
  // One approval, one finalization
  // ---------------------------------------------------------------------------

  // The round that earned finalization number k of r, counted from 0.
  function EarnedBy(log: History, r: Address, k: nat): seq<Approval>
    requires k < Finalizations(log, r)
  {
    var Snoc(before, e) := log;
    if k < Finalizations(before, r) then EarnedBy(before, r, k) else Round(before, r)
  }

  // What the guardian signed.
  function RequestOf(c: Chain, r: Address, a: Approval): Message {
    RecoveryMessage(Recovery(r, a.newRoot, c.ShortId(), a.nonce))
  }

  lemma {:induction false} EarnedRoundIsGenuine(c: Chain, log: History, r: Address, k: nat)
    requires FinalizationsEarned(c, log, r) && k < Finalizations(log, r)
    ensures forall a :: a in EarnedBy(log, r, k) ==>
              Genuine(c, r, a) && a.newRoot == EarnedBy(log, r, k)[0].newRoot && a.nonce == k % TWO_64
  {
    hide Genuine;
    if k < Finalizations(log.before, r) {
      EarnedRoundIsGenuine(c, log.before, r, k);
    }
  }

  /** In every run, approvals behind two different finalizations of r were given for different signed
      requests unless the two are a multiple of 2^64 finalizations apart and install the same root. */
  lemma FinalizationsShareNoSignature(c: Chain, owner: Address, blocks: seq<Block>, r: Address, j: nat, k: nat,
                                      a: Approval, b: Approval)
    requires var log := Run(c, Deployed(owner), blocks).log;
             j < k < Finalizations(log, r) && a in EarnedBy(log, r, j) && b in EarnedBy(log, r, k)
    ensures Recover(c, RequestOf(c, r, a), a.sig) == Success(a.guardian)
    ensures Recover(c, RequestOf(c, r, b), b.sig) == Success(b.guardian)
    ensures RequestOf(c, r, a) == RequestOf(c, r, b) <==> (k - j) % TWO_64 == 0 && a.newRoot == b.newRoot
  {
    var log := Run(c, Deployed(owner), blocks).log;
    RunsKeepRecovery(c, owner, blocks, r);
    hide Run;
    EarnedRoundIsGenuine(c, log, r, j);
    EarnedRoundIsGenuine(c, log, r, k);
    hide Recover;
    SameRemainder(j, k);
  }

  lemma SameRemainder(j: nat, k: nat)
    requires j < k
    ensures j % TWO_64 == k % TWO_64 <==> (k - j) % TWO_64 == 0
  {
  }

  lemma DistinctRequestsDiffer(c: Chain, self: Address, m1: Message, m2: Message)
    requires IsContractAt(c, self) && m1 != m2
    ensures var d := Domain(c.chainId, self);
            c.digestOf(m1) != c.digestOf(m2) || Collides(c.keccak, CollisionOf(c.keccak, d, m1, d, m2))
  {
    hide Digest, CollisionOf, Collides, IsContractAt;
    ContractDigest(c, self, m1);
    ContractDigest(c, self, m2);
    if c.digestOf(m1) == c.digestOf(m2) {
      DigestBindsEveryField(c.keccak, Domain(c.chainId, self), m1, Domain(c.chainId, self), m2);
    }
  }

  /** The same for a deployed contract and the digests: two finalizations of r fewer than 2^64 apart never rest
      on one signed digest, or the hash has collided. */
  lemma FinalizationsShareNoDigest(c: Chain, self: Address, owner: Address, blocks: seq<Block>, r: Address,
                                   j: nat, k: nat, a: Approval, b: Approval)
    requires IsContractAt(c, self)
    requires var log := Run(c, Deployed(owner), blocks).log;
             j < k < Finalizations(log, r) && a in EarnedBy(log, r, j) && b in EarnedBy(log, r, k)
    requires k - j < TWO_64
    ensures var d := Domain(c.chainId, self);
      || c.digestOf(RequestOf(c, r, a)) != c.digestOf(RequestOf(c, r, b))
      || Collides(c.keccak, CollisionOf(c.keccak, d, RequestOf(c, r, a), d, RequestOf(c, r, b)))
  {
    hide Run, Recover, Collides, CollisionOf, IsContractAt, EarnedBy, Finalizations, RequestOf;
    FinalizationsShareNoSignature(c, owner, blocks, r, j, k, a, b);
    DistinctRequestsDiffer(c, self, RequestOf(c, r, a), RequestOf(c, r, b));
  }

  /** A cancel does not use signatures up: in every run, an approval of the round just cancelled starts a new
      round at once, exactly when r is still registered and its signer still a guardian. */
  lemma CancelledApprovalCountsAgain(c: Chain, owner: Address, blocks: seq<Block>, r: Address, sender: Address,
                                     a: Approval, now: Timestamp)
    requires var s := Run(c, Deployed(owner), blocks); a in Round(s.log, r) && CancelRecoveryStep(s, sender, r).Ok?
    ensures var s := Run(c, Deployed(owner), blocks);
      var cancelled := CancelRecoveryStep(s, sender, r).st;
      InitiateRecoveryStep(c, now, cancelled, r, a.newRoot, a.sig).Ok?
      <==> r in s.authorizedProvers && a.guardian in s.Guardians(r)
  {
    var s := Run(c, Deployed(owner), blocks);
    RunsKeepRecovery(c, owner, blocks, r);
    hide Run, Recover, ClearFlags;
    assert RequestOf(c, r, a) == RecoveryRequest(c, CancelRecoveryStep(s, sender, r).st, r, a.newRoot);
  }
}
