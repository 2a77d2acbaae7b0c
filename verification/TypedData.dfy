/** The EIP-712 structures and digests as the Solidity contracts compute them. */
module TypedData {
  import opened Base
  import opened Words

  // keccak256 is any function into 32 bytes; nothing below assumes it injective.
  type Hash = Bytes -> Bytes32

  datatype TypeName = IntentType | DelegationType | SessionType | RecoveryType | DomainType

  // The struct types as the contracts spell them, declaration by declaration.
  function TypeString(t: TypeName): string {
    match t
    case IntentType =>
      IntentTypeTail() + (",uint8 " + "paymasterMode") + (",address " + "paymaster") + ")"
    case DelegationType =>
      DelegationTypeHead() + (",uint64 " + "expiration") + (",uint64 " + "chainId") + (",uint64 " + "nonce") + ")"
    case SessionType =>
      SessionTypeHead() + (",uint128 " + "maxValue") + (",uint64 " + "expiration") + (",uint64 " + "chainId") + ")"
    case RecoveryType =>
      "RecoveryRequest" + "(" + ("address " + "oldRoot") + (",address " + "newRoot") + (",uint64 " + "chainId")
      + (",uint64 " + "nonce") + ")"
    case DomainType =>
      "EIP712Domain" + "(" + ("string " + "name") + (",string " + "version") + (",uint256 " + "chainId")
      + (",address " + "verifyingContract") + ")"
  }

  // The first 6, the first 12 and the first 15 declarations of the intent.
  function IntentTypeHead(): string {
    "SovereignIntent" + "(" + ("address " + "targetContract") + (",bytes4 " + "functionSig")
    + (",address " + "recipient") + (",address " + "assetAddress") + (",bytes32 " + "callDataHash")
    + (",uint128 " + "maxValue")
  }

  function IntentTypeBody(): string {
    IntentTypeHead() + (",uint64 " + "expiration") + (",uint64 " + "chainId") + (",uint64 " + "nonce")
    + (",uint64 " + "sessionEpoch") + (",uint64 " + "gasLimit") + (",uint128 " + "maxFeePerGas")
  }

  function IntentTypeTail(): string {
    IntentTypeBody() + (",uint128 " + "maxPriorityFeePerGas") + (",bytes32 " + "requiredClaim")
    + (",bytes32 " + "claimProofHash")
  }

  // The first three of the delegation, and the first four of the session certificate.
  function DelegationTypeHead(): string {
    "DelegationCertificate" + "(" + ("address " + "delegate") + (",bytes4 " + "scope") + (",uint128 " + "maxValue")
  }

  function SessionTypeHead(): string {
    "SessionCertificate" + "(" + ("address " + "session") + (",address " + "parent") + (",bytes4 " + "scope")
    + (",address " + "target")
  }

  function TypeHash(h: Hash, t: TypeName): Bytes32 {
    h(Ascii(TypeString(t)))
  }

  datatype Intent = Intent(
    targetContract: Address, functionSig: Bytes4, recipient: Address, assetAddress: Address,
    callDataHash: Bytes32, maxValue: Uint128, expiration: Uint64, chainId: Uint64, nonce: Uint64,
    sessionEpoch: Uint64, gasLimit: Uint64, maxFeePerGas: Uint128, maxPriorityFeePerGas: Uint128,
    requiredClaim: Bytes32, claimProofHash: Bytes32, paymasterMode: Byte, paymaster: Address)

  datatype Delegation = Delegation(
    delegate: Address, scope: Bytes4, maxValue: Uint128, expiration: Uint64, chainId: Uint64, nonce: Uint64)

  datatype Session = Session(
    session: Address, parent: Address, scope: Bytes4, target: Address, maxValue: Uint128,
    expiration: Uint64, chainId: Uint64)

  datatype Recovery = Recovery(oldRoot: Address, newRoot: Address, chainId: Uint64, nonce: Uint64)

  datatype Message =
    | IntentMessage(intent: Intent)
    | DelegationMessage(delegation: Delegation)
    | SessionMessage(session: Session)
    | RecoveryMessage(recovery: Recovery)

  datatype Domain = Domain(chainId: Uint256, verifyingContract: Address)

  // The contract encodes an intent in three calls of abi.encode and concatenates the results.
  function IntentFirst(typeHash: Bytes32, p: Intent): seq<Bytes32> {
    [typeHash, UintWord(p.targetContract), Bytes4Word(p.functionSig), UintWord(p.recipient),
     UintWord(p.assetAddress), p.callDataHash, UintWord(p.maxValue)]
  }

  function IntentSecond(p: Intent): seq<Bytes32> {
    [UintWord(p.expiration), UintWord(p.chainId), UintWord(p.nonce), UintWord(p.sessionEpoch),
     UintWord(p.gasLimit), UintWord(p.maxFeePerGas), UintWord(p.maxPriorityFeePerGas), p.requiredClaim]
  }

  function IntentThird(p: Intent): seq<Bytes32> {
    [p.claimProofHash, UintWord(p.paymasterMode), UintWord(p.paymaster)]
  }

  function IntentEncoding(typeHash: Bytes32, p: Intent): (b: Bytes)
    ensures |b| == 18 * 32
  {
    Encode(IntentFirst(typeHash, p)) + Encode(IntentSecond(p)) + Encode(IntentThird(p))
  }

  function DelegationWords(typeHash: Bytes32, d: Delegation): seq<Bytes32> {
    [typeHash, UintWord(d.delegate), Bytes4Word(d.scope), UintWord(d.maxValue),
     UintWord(d.expiration), UintWord(d.chainId), UintWord(d.nonce)]
  }

  function SessionWords(typeHash: Bytes32, p: Session): seq<Bytes32> {
    [typeHash, UintWord(p.session), UintWord(p.parent), Bytes4Word(p.scope),
     UintWord(p.target), UintWord(p.maxValue), UintWord(p.expiration), UintWord(p.chainId)]
  }

  function RecoveryWords(typeHash: Bytes32, q: Recovery): seq<Bytes32> {
    [typeHash, UintWord(q.oldRoot), UintWord(q.newRoot), UintWord(q.chainId), UintWord(q.nonce)]
  }

  function DomainWords(typeHash: Bytes32, name: Bytes32, version: Bytes32, d: Domain): seq<Bytes32> {
    [typeHash, name, version, UintWord(d.chainId), UintWord(d.verifyingContract)]
  }

  function TypeOf(m: Message): TypeName {
    match m
    case IntentMessage(_) => IntentType
    case DelegationMessage(_) => DelegationType
    case SessionMessage(_) => SessionType
    case RecoveryMessage(_) => RecoveryType
  }

  function Encoding(typeHash: Bytes32, m: Message): Bytes {
    match m
    case IntentMessage(p) => IntentEncoding(typeHash, p)
    case DelegationMessage(d) => Encode(DelegationWords(typeHash, d))
    case SessionMessage(p) => Encode(SessionWords(typeHash, p))
    case RecoveryMessage(q) => Encode(RecoveryWords(typeHash, q))
  }

  // The byte strings whose hashes are the struct hash and the domain separator.
  function Preimage(h: Hash, m: Message): Bytes {
    Encoding(TypeHash(h, TypeOf(m)), m)
  }

  function DomainPreimage(h: Hash, d: Domain): Bytes {
    Encode(DomainWords(TypeHash(h, DomainType), h(Ascii("HuntKey")), h(Ascii("1")), d))
  }

  // The bytes hashed last: 0x19 0x01, the domain separator, the struct hash.
  function Envelope(separator: Bytes32, structHash: Bytes32): Bytes {
    [0x19, 0x01] + separator + structHash
  }

  function Digest(h: Hash, d: Domain, m: Message): Bytes32 {
    h(Envelope(h(DomainPreimage(h, d)), h(Preimage(h, m))))
  }

  // ---------------------------------------------------------------------------
  // Two digests agree only for the same message, or keccak256 has collided
  // ---------------------------------------------------------------------------

  predicate Collides(h: Hash, pair: (Bytes, Bytes)) {
    pair.0 != pair.1 && h(pair.0) == h(pair.1)
  }

  // The pair among three candidates that collides when the digests of two different messages agree.
  function CollisionOf(h: Hash, d1: Domain, m1: Message, d2: Domain, m2: Message): (Bytes, Bytes) {
    var (p1, p2) := (DomainPreimage(h, d1), DomainPreimage(h, d2));
    var (q1, q2) := (Preimage(h, m1), Preimage(h, m2));
    if Envelope(h(p1), h(q1)) != Envelope(h(p2), h(q2)) then (Envelope(h(p1), h(q1)), Envelope(h(p2), h(q2)))
    else if p1 != p2 then (p1, p2)
    else (q1, q2)
  }

  /** Equal digests mean the same struct type, the same fields, the same chain id and the same
      contract, unless the two given byte strings are a collision of the hash. */
  lemma DigestBindsEveryField(h: Hash, d1: Domain, m1: Message, d2: Domain, m2: Message)
    requires Digest(h, d1, m1) == Digest(h, d2, m2)
    ensures (d1 == d2 && m1 == m2) || Collides(h, CollisionOf(h, d1, m1, d2, m2))
  {
    EnvelopeInjective(h(DomainPreimage(h, d1)), h(Preimage(h, m1)), h(DomainPreimage(h, d2)), h(Preimage(h, m2)));
    if d1 != d2 || m1 != m2 {
      DomainEncodingInjective(TypeHash(h, DomainType), h(Ascii("HuntKey")), h(Ascii("1")), d1, d2);
      EncodingInjective(TypeHash(h, TypeOf(m1)), m1, TypeHash(h, TypeOf(m2)), m2);
    }
  }

  lemma EnvelopeInjective(s1: Bytes32, t1: Bytes32, s2: Bytes32, t2: Bytes32)
    ensures Envelope(s1, t1) == Envelope(s2, t2) ==> s1 == s2 && t1 == t2
  {
    assert s1 == Envelope(s1, t1)[2..34] && t1 == Envelope(s1, t1)[34..];
    assert s2 == Envelope(s2, t2)[2..34] && t2 == Envelope(s2, t2)[34..];
  }

  lemma DomainEncodingInjective(typeHash: Bytes32, name: Bytes32, version: Bytes32, d1: Domain, d2: Domain)
    ensures Encode(DomainWords(typeHash, name, version, d1)) == Encode(DomainWords(typeHash, name, version, d2)) ==>
            d1 == d2
  {
    var a, b := DomainWords(typeHash, name, version, d1), DomainWords(typeHash, name, version, d2);
    if Encode(a) == Encode(b) {
      EncodeInjective(a, b);
      assert a[3] == b[3] && a[4] == b[4];
      UintWordInjective(d1.chainId, d2.chainId);
      UintWordInjective(d1.verifyingContract, d2.verifyingContract);
    }
  }

  lemma EncodingInjective(t1: Bytes32, m1: Message, t2: Bytes32, m2: Message)
    ensures Encoding(t1, m1) == Encoding(t2, m2) ==> m1 == m2
  {
    if Encoding(t1, m1) == Encoding(t2, m2) {
      // The four struct types have encodings of four different lengths.
      assert |Encoding(t1, m1)| == |Encoding(t2, m2)|;
      match m1 {
        case IntentMessage(p) => IntentInjective(t1, p, t2, m2.intent);
        case DelegationMessage(d) => DelegationInjective(t1, d, t2, m2.delegation);
        case SessionMessage(p) => SessionInjective(t1, p, t2, m2.session);
        case RecoveryMessage(q) => RecoveryInjective(t1, q, t2, m2.recovery);
      }
    }
  }

  lemma IntentEncodingIsFlat(t: Bytes32, p: Intent)
    ensures IntentEncoding(t, p) == Encode(IntentFirst(t, p) + IntentSecond(p) + IntentThird(p))
  {
    EncodeAppend(IntentFirst(t, p), IntentSecond(p));
    EncodeAppend(IntentFirst(t, p) + IntentSecond(p), IntentThird(p));
  }

  lemma IntentInjective(t1: Bytes32, p: Intent, t2: Bytes32, q: Intent)
    requires IntentEncoding(t1, p) == IntentEncoding(t2, q)
    ensures p == q
  {
    var a, b := IntentEncoding(t1, p), IntentEncoding(t2, q);
    assert Encode(IntentFirst(t1, p)) == a[..7 * 32] == b[..7 * 32] == Encode(IntentFirst(t2, q));
    assert Encode(IntentSecond(p)) == a[7 * 32..15 * 32] == b[7 * 32..15 * 32] == Encode(IntentSecond(q));
    assert Encode(IntentThird(p)) == a[15 * 32..] == b[15 * 32..] == Encode(IntentThird(q));
    IntentFirstInjective(t1, p, t2, q);
    IntentSecondInjective(p, q);
    IntentThirdInjective(p, q);
  }

  lemma IntentFirstInjective(t1: Bytes32, p: Intent, t2: Bytes32, q: Intent)
    requires Encode(IntentFirst(t1, p)) == Encode(IntentFirst(t2, q))
    ensures p.targetContract == q.targetContract && p.functionSig == q.functionSig && p.recipient == q.recipient
    ensures p.assetAddress == q.assetAddress && p.callDataHash == q.callDataHash && p.maxValue == q.maxValue
  {
    var a, b := IntentFirst(t1, p), IntentFirst(t2, q);
    EncodeInjective(a, b);
    assert a[1] == b[1] && a[2] == b[2] && a[3] == b[3] && a[4] == b[4] && a[5] == b[5] && a[6] == b[6];
    UintWordInjective(p.targetContract, q.targetContract);
    Bytes4WordInjective(p.functionSig, q.functionSig);
    UintWordInjective(p.recipient, q.recipient);
    UintWordInjective(p.assetAddress, q.assetAddress);
    UintWordInjective(p.maxValue, q.maxValue);
  }

  lemma IntentSecondInjective(p: Intent, q: Intent)
    requires Encode(IntentSecond(p)) == Encode(IntentSecond(q))
    ensures p.expiration == q.expiration && p.chainId == q.chainId && p.nonce == q.nonce
    ensures p.sessionEpoch == q.sessionEpoch && p.gasLimit == q.gasLimit && p.maxFeePerGas == q.maxFeePerGas
    ensures p.maxPriorityFeePerGas == q.maxPriorityFeePerGas && p.requiredClaim == q.requiredClaim
  {
    var a, b := IntentSecond(p), IntentSecond(q);
    EncodeInjective(a, b);
    assert a[0] == b[0] && a[1] == b[1] && a[2] == b[2] && a[3] == b[3] && a[4] == b[4] && a[5] == b[5];
    assert a[6] == b[6] && a[7] == b[7];
    UintWordInjective(p.expiration, q.expiration);
    UintWordInjective(p.chainId, q.chainId);
    UintWordInjective(p.nonce, q.nonce);
    UintWordInjective(p.sessionEpoch, q.sessionEpoch);
    UintWordInjective(p.gasLimit, q.gasLimit);
    UintWordInjective(p.maxFeePerGas, q.maxFeePerGas);
    UintWordInjective(p.maxPriorityFeePerGas, q.maxPriorityFeePerGas);
  }

  lemma IntentThirdInjective(p: Intent, q: Intent)
    requires Encode(IntentThird(p)) == Encode(IntentThird(q))
    ensures p.claimProofHash == q.claimProofHash && p.paymasterMode == q.paymasterMode && p.paymaster == q.paymaster
  {
    var a, b := IntentThird(p), IntentThird(q);
    EncodeInjective(a, b);
    assert a[0] == b[0] && a[1] == b[1] && a[2] == b[2];
    UintWordInjective(p.paymasterMode, q.paymasterMode);
    UintWordInjective(p.paymaster, q.paymaster);
  }

  lemma DelegationInjective(t1: Bytes32, p: Delegation, t2: Bytes32, q: Delegation)
    requires Encode(DelegationWords(t1, p)) == Encode(DelegationWords(t2, q))
    ensures p == q
  {
    var a, b := DelegationWords(t1, p), DelegationWords(t2, q);
    EncodeInjective(a, b);
    assert a[1] == b[1] && a[2] == b[2] && a[3] == b[3] && a[4] == b[4] && a[5] == b[5] && a[6] == b[6];
    UintWordInjective(p.delegate, q.delegate);
    Bytes4WordInjective(p.scope, q.scope);
    UintWordInjective(p.maxValue, q.maxValue);
    UintWordInjective(p.expiration, q.expiration);
    UintWordInjective(p.chainId, q.chainId);
    UintWordInjective(p.nonce, q.nonce);
  }

  lemma SessionInjective(t1: Bytes32, p: Session, t2: Bytes32, q: Session)
    requires Encode(SessionWords(t1, p)) == Encode(SessionWords(t2, q))
    ensures p == q
  {
    var a, b := SessionWords(t1, p), SessionWords(t2, q);
    EncodeInjective(a, b);
    assert a[1] == b[1] && a[2] == b[2] && a[3] == b[3] && a[4] == b[4] && a[5] == b[5] && a[6] == b[6] && a[7] == b[7];
    UintWordInjective(p.session, q.session);
    UintWordInjective(p.parent, q.parent);
    Bytes4WordInjective(p.scope, q.scope);
    UintWordInjective(p.target, q.target);
    UintWordInjective(p.maxValue, q.maxValue);
    UintWordInjective(p.expiration, q.expiration);
    UintWordInjective(p.chainId, q.chainId);
  }

  lemma RecoveryInjective(t1: Bytes32, p: Recovery, t2: Bytes32, q: Recovery)
    requires Encode(RecoveryWords(t1, p)) == Encode(RecoveryWords(t2, q))
    ensures p == q
  {
    var a, b := RecoveryWords(t1, p), RecoveryWords(t2, q);
    EncodeInjective(a, b);
    assert a[1] == b[1] && a[2] == b[2] && a[3] == b[3] && a[4] == b[4];
    UintWordInjective(p.oldRoot, q.oldRoot);
    UintWordInjective(p.newRoot, q.newRoot);
    UintWordInjective(p.chainId, q.chainId);
    UintWordInjective(p.nonce, q.nonce);
  }
}
