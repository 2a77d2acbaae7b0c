/** The ERC-4337 validation data word can be unpacked into what was packed. */
module ValidationData {
  import opened Base
  import opened TypedData
  import opened Storage
  import opened Execution

  function Pow2(k: nat): (p: nat)
    ensures p > 0
  {
    if k == 0 then 1 else 2 * Pow2(k - 1)
  }

  lemma Twice(x: nat, y: nat)
    ensures 2 * (x * y) == (2 * x) * y
  {
  }

  lemma {:induction false} Pow2Add(a: nat, b: nat)
    ensures Pow2(a + b) == Pow2(a) * Pow2(b)
  {
    if a > 0 {
      Pow2Add(a - 1, b);
      Twice(Pow2(a - 1), Pow2(b));
    }
  }

  lemma Join(a: nat, p: nat, b: nat, q: nat) returns (k: nat)
    requires Pow2(a) == p && Pow2(b) == q
    ensures Pow2(k) == p * q
  {
    k := a + b;
    Pow2Add(a, b);
  }

  // The two field offsets are powers of two.
  lemma Offsets() returns (k160: nat, k208: nat)
    ensures Pow2(k160) == TWO_160 && Pow2(k208) == TWO_208
  {
    var k4 := Join(2, 4, 2, 4);
    var k8 := Join(k4, 0x10, k4, 0x10);
    var k16 := Join(k8, 0x100, k8, 0x100);
    var k32 := Join(k16, 0x1_0000, k16, 0x1_0000);
    var k48 := Join(k32, 0x1_0000_0000, k16, 0x1_0000);
    var k64 := Join(k32, 0x1_0000_0000, k32, 0x1_0000_0000);
    var k128 := Join(k64, 0x1_0000_0000_0000_0000, k64, 0x1_0000_0000_0000_0000);
    k160 := Join(k128, 0x1_0000_0000_0000_0000_0000_0000_0000_0000, k32, 0x1_0000_0000);
    k208 := Join(k160, 0x1_0000_0000_0000_0000_0000_0000_0000_0000_0000_0000, k48, 0x1_0000_0000_0000);
  }

  // Or-ing a number below 2^k with a multiple of 2^k is adding them.
  lemma {:induction false} OrOfDisjoint(x: nat, y: nat, k: nat)
    requires x < Pow2(k)
    ensures Or(x, y * Pow2(k)) == x + y * Pow2(k)
    decreases k
  {
    if k > 0 && x != 0 && y * Pow2(k) != 0 {
      assert y * Pow2(k) == 2 * (y * Pow2(k - 1)) by {
        assert y * (2 * Pow2(k - 1)) == 2 * (y * Pow2(k - 1));
      }
      OrOfDisjoint(x / 2, y, k - 1);
    }
  }

  lemma PackIsSum(sigFailed: bool, validUntil: Uint48, validAfter: Uint48)
    ensures PackValidationData(sigFailed, validUntil, validAfter)
            == (if sigFailed then 1 else 0) + validUntil * TWO_160 + validAfter * TWO_208
  {
    var flag: nat := if sigFailed then 1 else 0;
    var k160, k208 := Offsets();
    hide Pow2;
    OrOfDisjoint(flag, validUntil, k160);
    OrOfDisjoint(flag + validUntil * TWO_160, validAfter, k208);
    hide Or;
  }

  lemma SumDecodes(flag: nat, validUntil: Uint48, validAfter: Uint48)
    requires flag <= 1
    ensures var data := flag + validUntil * TWO_160 + validAfter * TWO_208;
            && data < TWO_256
            && Authorizer(data) == flag && ValidUntil(data) == validUntil && ValidAfter(data) == validAfter
  {
    var data := flag + validUntil * TWO_160 + validAfter * TWO_208;
    assert data == flag + (validUntil + validAfter * TWO_48) * TWO_160;
    assert data / TWO_160 == validUntil + validAfter * TWO_48;
  }

  // Shift and mask decoding of the three fields.
  function Authorizer(data: nat): nat { data % TWO_160 }
  function ValidUntil(data: nat): nat { data / TWO_160 % TWO_48 }
  function ValidAfter(data: nat): nat { data / TWO_208 }

  /** The packed word fits 256 bits and decodes to the flag and both times, for all inputs. */
  lemma PackingIsInvertible(sigFailed: bool, validUntil: Uint48, validAfter: Uint48)
    ensures var data := PackValidationData(sigFailed, validUntil, validAfter);
            && data < TWO_256
            && Authorizer(data) == (if sigFailed then 1 else 0)
            && ValidUntil(data) == validUntil
            && ValidAfter(data) == validAfter
  {
    PackIsSum(sigFailed, validUntil, validAfter);
    SumDecodes(if sigFailed then 1 else 0, validUntil, validAfter);
    hide PackValidationData;
  }

  // What validateUserOp reports for an accepted operation: its certificate's expiration, if it fits.
  lemma AcceptedOperationReportsExpiration(session: Session)
    ensures Authorizer(SigValid(session)) == 0 && ValidAfter(SigValid(session)) == 0
    ensures ValidUntil(SigValid(session)) == session.expiration <==> session.expiration < TWO_48
    ensures Authorizer(SigFailed()) == 1
  {
    PackingIsInvertible(false, session.expiration % TWO_48, 0);
    PackingIsInvertible(true, 0, 0);
  }

  /** What the entry point decodes from a validation that does not revert: a failed signature exactly
      when the operation was not accepted or could not pre-fund, and otherwise the session's
      expiration, cut to 48 bits, with no start time. */
  lemma ValidationReportsOutcome(c: Chain, now: Timestamp, s: State, tx: Tx)
    requires tx.op.ValidateUserOp? && Exec(c, now, s, tx).Ok?
    ensures var op := tx.op.userOp;
      var data := Exec(c, now, s, tx).data;
      var v := CheckUserOp(c, now, s, tx.sender, op, tx.op.missing);
      var through := v.Pass? && (tx.op.missing == 0
        || CallOut(c, now, s.Open(v.frame), Call(s.entryPoint, tx.op.missing, []), tx.op.entryPointCode).Some?);
      && op.chain.Some? && data < TWO_256 && ValidAfter(data) == 0
      && Authorizer(data) == (if through then 0 else 1)
      && ValidUntil(data) == if through then op.chain.value.0.body.expiration % TWO_48 else 0
  {
    var op := tx.op.userOp;
    RejectsMalformed(c, now, s, tx.sender, op, tx.op.missing);
    var v := CheckUserOp(c, now, s, tx.sender, op, tx.op.missing);
    ReportsVerdict(c, now, s, v, op, tx.op.missing, tx.op.entryPointCode);
    hide CheckUserOp, CallOut, PackValidationData, ExecUserOp;
    PackingIsInvertible(false, op.chain.value.0.body.expiration % TWO_48, 0);
    PackingIsInvertible(true, 0, 0);
  }

  lemma RejectsMalformed(c: Chain, now: Timestamp, s: State, sender: Address, op: PackedUserOp, missing: Uint256)
    ensures !CheckUserOp(c, now, s, sender, op, missing).Hard? ==> op.chain.Some?
  {
    hide CheckChain;
  }

  lemma ReportsVerdict(c: Chain, now: Timestamp, s: State, v: UserOpVerdict, op: PackedUserOp, missing: Uint256, code: Callee)
    requires op.chain.Some? && ExecUserOp(c, now, s, v, op, missing, code).Ok?
    ensures ExecUserOp(c, now, s, v, op, missing, code).data
            == if v.Pass? && (missing == 0 || CallOut(c, now, s.Open(v.frame), Call(s.entryPoint, missing, []), code).Some?)
               then SigValid(op.chain.value.0.body) else SigFailed()
  {
    hide CallOut, SigValid, SigFailed;
  }
}
