/** The off-chain encoders of src/core, src/intents, src/sessions and src/recovery: they extend
    byte buffers step by step, and end with the bytes and digests of the contracts. */
module RustEncoding {
  import opened Base
  import opened Words
  import opened TypedData
  import opened Storage
  import opened Eip712

  // ---------------------------------------------------------------------------
  // The Rust structs, whose addresses are byte arrays
  // ---------------------------------------------------------------------------

  datatype SovereignIntent = SovereignIntent(
    targetContract: Bytes20, functionSig: Bytes4, recipient: Bytes20, assetAddress: Bytes20,
    callDataHash: Bytes32, maxValue: Uint128, expiration: Uint64, chainId: Uint64, nonce: Uint64,
    sessionEpoch: Uint64, gasLimit: Uint64, maxFeePerGas: Uint128, maxPriorityFeePerGas: Uint128,
    requiredClaim: Bytes32, claimProofHash: Bytes32, paymasterMode: Byte, paymaster: Bytes20)

  datatype DelegationCertificate = DelegationCertificate(
    delegate: Bytes20, scope: Bytes4, maxValue: Uint128, expiration: Uint64, chainId: Uint64, nonce: Uint64)

  datatype SessionCertificate = SessionCertificate(
    session: Bytes20, parent: Bytes20, scope: Bytes4, target: Bytes20, maxValue: Uint128,
    expiration: Uint64, chainId: Uint64)

  datatype RecoveryRequest = RecoveryRequest(oldRoot: Bytes20, newRoot: Bytes20, chainId: Uint64, nonce: Uint64)

  function IntentOnChain(p: SovereignIntent): Intent {
    Intent(AddressOf(p.targetContract), p.functionSig, AddressOf(p.recipient), AddressOf(p.assetAddress),
           p.callDataHash, p.maxValue, p.expiration, p.chainId, p.nonce, p.sessionEpoch, p.gasLimit,
           p.maxFeePerGas, p.maxPriorityFeePerGas, p.requiredClaim, p.claimProofHash, p.paymasterMode,
           AddressOf(p.paymaster))
  }

  function DelegationOnChain(d: DelegationCertificate): Delegation {
    Delegation(AddressOf(d.delegate), d.scope, d.maxValue, d.expiration, d.chainId, d.nonce)
  }

  function SessionOnChain(p: SessionCertificate): Session {
    Session(AddressOf(p.session), AddressOf(p.parent), p.scope, AddressOf(p.target), p.maxValue, p.expiration, p.chainId)
  }

  function RecoveryOnChain(q: RecoveryRequest): Recovery {
    Recovery(AddressOf(q.oldRoot), AddressOf(q.newRoot), q.chainId, q.nonce)
  }

  // The same as EIP-712 structs, with addresses as bytes.
  function SovereignIntentStruct(p: SovereignIntent): Struct {
    Struct("SovereignIntent",
           [Member("targetContract", AddressValue(p.targetContract)),
            Member("functionSig", Bytes4Value(p.functionSig)), Member("recipient", AddressValue(p.recipient)),
            Member("assetAddress", AddressValue(p.assetAddress)),
            Member("callDataHash", Bytes32Value(p.callDataHash)), Member("maxValue", Uint128Value(p.maxValue)),
            Member("expiration", Uint64Value(p.expiration)), Member("chainId", Uint64Value(p.chainId)),
            Member("nonce", Uint64Value(p.nonce)), Member("sessionEpoch", Uint64Value(p.sessionEpoch)),
            Member("gasLimit", Uint64Value(p.gasLimit)), Member("maxFeePerGas", Uint128Value(p.maxFeePerGas)),
            Member("maxPriorityFeePerGas", Uint128Value(p.maxPriorityFeePerGas)),
            Member("requiredClaim", Bytes32Value(p.requiredClaim)),
            Member("claimProofHash", Bytes32Value(p.claimProofHash)),
            Member("paymasterMode", Uint8Value(p.paymasterMode)), Member("paymaster", AddressValue(p.paymaster))])
  }

  function DelegationCertificateStruct(d: DelegationCertificate): Struct {
    Struct("DelegationCertificate",
           [Member("delegate", AddressValue(d.delegate)), Member("scope", Bytes4Value(d.scope)),
            Member("maxValue", Uint128Value(d.maxValue)), Member("expiration", Uint64Value(d.expiration)),
            Member("chainId", Uint64Value(d.chainId)), Member("nonce", Uint64Value(d.nonce))])
  }

  function SessionCertificateStruct(p: SessionCertificate): Struct {
    Struct("SessionCertificate",
           [Member("session", AddressValue(p.session)), Member("parent", AddressValue(p.parent)),
            Member("scope", Bytes4Value(p.scope)), Member("target", AddressValue(p.target)),
            Member("maxValue", Uint128Value(p.maxValue)), Member("expiration", Uint64Value(p.expiration)),
            Member("chainId", Uint64Value(p.chainId))])
  }

  function RecoveryRequestStruct(q: RecoveryRequest): Struct {
    Struct("RecoveryRequest",
           [Member("oldRoot", AddressValue(q.oldRoot)), Member("newRoot", AddressValue(q.newRoot)),
            Member("chainId", Uint64Value(q.chainId)), Member("nonce", Uint64Value(q.nonce))])
  }

  lemma AddressBytes(b: Bytes20)
    ensures BigEndian(AddressOf(b), 20) == b
  {
    BigEndianOfValue(b);
  }

  lemma IntentStructOnChain(p: SovereignIntent)
    ensures SovereignIntentStruct(p) == IntentStruct(IntentOnChain(p))
  {
    hide BigEndian, AddressOf;
    AddressBytes(p.targetContract);
    AddressBytes(p.recipient);
    AddressBytes(p.assetAddress);
    AddressBytes(p.paymaster);
  }

  lemma DelegationStructOnChain(d: DelegationCertificate)
    ensures DelegationCertificateStruct(d) == DelegationStruct(DelegationOnChain(d))
  {
    AddressBytes(d.delegate);
  }

  lemma SessionStructOnChain(p: SessionCertificate)
    ensures SessionCertificateStruct(p) == SessionStruct(SessionOnChain(p))
  {
    hide BigEndian, AddressOf;
    AddressBytes(p.session);
    AddressBytes(p.parent);
    AddressBytes(p.target);
  }

  lemma RecoveryStructOnChain(q: RecoveryRequest)
    ensures RecoveryRequestStruct(q) == RecoveryStruct(RecoveryOnChain(q))
  {
    hide BigEndian, AddressOf;
    AddressBytes(q.oldRoot);
    AddressBytes(q.newRoot);
  }

  // ---------------------------------------------------------------------------
  // Words
  // ---------------------------------------------------------------------------

  method LeftPad32(data: Bytes) returns (word: Bytes32)
    requires |data| <= 32
    ensures word == Zeros(32 - |data|) + data
  {
    var buffer := new Byte[32](_ => 0);
    var start := 32 - |data|;
    forall i | 0 <= i < |data| {
      buffer[start + i] := data[i];
    }
    word := buffer[..];
  }

  method RightPad32(data: Bytes) returns (word: Bytes32)
    requires |data| <= 32
    ensures word == data + Zeros(32 - |data|)
  {
    var buffer := new Byte[32](_ => 0);
    forall i | 0 <= i < |data| {
      buffer[i] := data[i];
    }
    word := buffer[..];
  }

  method U64ToWord(val: Uint64) returns (word: Bytes32)
    ensures word == UintWord(val)
  {
    Pow256Values();
    BigEndianPads(val, 8, 24);
    word := LeftPad32(BigEndian(val, 8));
  }

  method U128ToWord(val: Uint128) returns (word: Bytes32)
    ensures word == UintWord(val)
  {
    Pow256Values();
    BigEndianPads(val, 16, 16);
    word := LeftPad32(BigEndian(val, 16));
  }

  method AddressToWord(addr: Bytes20) returns (word: Bytes32)
    ensures word == UintWord(AddressOf(addr))
  {
    ValueBound(addr);
    BigEndianOfValue(addr);
    BigEndianPads(Value(addr), 20, 12);
    word := LeftPad32(addr);
  }

  method Bytes4ToWord(selector: Bytes4) returns (word: Bytes32)
    ensures word == Bytes4Word(selector)
  {
    word := RightPad32(selector);
  }

  // paymasterMode is written into the last byte of a zero word.
  method U8ToWord(val: Byte) returns (word: Bytes32)
    ensures word == UintWord(val)
  {
    Pow256Values();
    BigEndianPads(val, 1, 31);
    var buffer := new Byte[32](_ => 0);
    buffer[31] := val;
    word := buffer[..];
    assert BigEndian(val, 1) == [] + [val];
    assert word == Zeros(31) + BigEndian(val, 1);
  }

  // extend_from_slice by one word; `words` is what the buffer holds so far.
  method Extend(buf: Bytes, ghost words: seq<Bytes32>, word: Bytes32) returns (longer: Bytes, ghost more: seq<Bytes32>)
    requires buf == Encode(words)
    ensures more == words + [word] && longer == Encode(more)
  {
    more := words + [word];
    assert more[..|more| - 1] == words;
    longer := buf + word;
  }

  // ---------------------------------------------------------------------------
  // Hashes
  // ---------------------------------------------------------------------------

  method DomainBuffer(typeHash: Bytes32, name: Bytes32, version: Bytes32, chainId: Uint64, verifyingContract: Bytes20)
    returns (buf: Bytes)
    ensures buf == Encode(DomainWords(typeHash, name, version, Domain(chainId, AddressOf(verifyingContract))))
  {
    ghost var ws: seq<Bytes32> := [];
    buf := [];
    buf, ws := Extend(buf, ws, typeHash);
    buf, ws := Extend(buf, ws, name);
    buf, ws := Extend(buf, ws, version);
    var w := U64ToWord(chainId);
    buf, ws := Extend(buf, ws, w);
    w := AddressToWord(verifyingContract);
    buf, ws := Extend(buf, ws, w);
    assert ws == DomainWords(typeHash, name, version, Domain(chainId, AddressOf(verifyingContract)));
  }

  method DomainSeparator(h: Hash, chainId: Uint64, verifyingContract: Bytes20) returns (hash: Bytes32)
    ensures hash == h(DomainPreimage(h, Domain(chainId, AddressOf(verifyingContract))))
  {
    var buf := DomainBuffer(TypeHash(h, DomainType), h(Ascii("HuntKey")), h(Ascii("1")), chainId, verifyingContract);
    hash := h(buf);
  }

  /** The intent buffer is byte for byte the concatenation of the contract's three encodings. */
  method IntentBuffer(typeHash: Bytes32, p: SovereignIntent) returns (buf: Bytes)
    ensures buf == IntentEncoding(typeHash, IntentOnChain(p))
  {
    ghost var ws: seq<Bytes32>;
    buf, ws := IntentHead(typeHash, p);
    ghost var first := ws;
    buf, ws := IntentMiddle(buf, ws, p);
    IntentEncodingIsFlat(typeHash, IntentOnChain(p));
    buf, ws := Extend(buf, ws, p.claimProofHash);
    var w := U8ToWord(p.paymasterMode);
    buf, ws := Extend(buf, ws, w);
    w := AddressToWord(p.paymaster);
    buf, ws := Extend(buf, ws, w);
    assert ws == first + IntentSecond(IntentOnChain(p)) + IntentThird(IntentOnChain(p));
  }

  method IntentHead(typeHash: Bytes32, p: SovereignIntent) returns (buf: Bytes, ghost ws: seq<Bytes32>)
    ensures ws == IntentFirst(typeHash, IntentOnChain(p)) && buf == Encode(ws)
  {
    ws := [];
    buf := [];
    buf, ws := Extend(buf, ws, typeHash);
    var w := AddressToWord(p.targetContract);
    buf, ws := Extend(buf, ws, w);
    w := Bytes4ToWord(p.functionSig);
    buf, ws := Extend(buf, ws, w);
    w := AddressToWord(p.recipient);
    buf, ws := Extend(buf, ws, w);
    w := AddressToWord(p.assetAddress);
    buf, ws := Extend(buf, ws, w);
    buf, ws := Extend(buf, ws, p.callDataHash);
    w := U128ToWord(p.maxValue);
    buf, ws := Extend(buf, ws, w);
  }

  method IntentMiddle(start: Bytes, ghost head: seq<Bytes32>, p: SovereignIntent) returns (buf: Bytes, ghost ws: seq<Bytes32>)
    requires start == Encode(head)
    ensures ws == head + IntentSecond(IntentOnChain(p)) && buf == Encode(ws)
  {
    buf, ws := start, head;
    var w := U64ToWord(p.expiration);
    buf, ws := Extend(buf, ws, w);
    w := U64ToWord(p.chainId);
    buf, ws := Extend(buf, ws, w);
    w := U64ToWord(p.nonce);
    buf, ws := Extend(buf, ws, w);
    w := U64ToWord(p.sessionEpoch);
    buf, ws := Extend(buf, ws, w);
    w := U64ToWord(p.gasLimit);
    buf, ws := Extend(buf, ws, w);
    w := U128ToWord(p.maxFeePerGas);
    buf, ws := Extend(buf, ws, w);
    w := U128ToWord(p.maxPriorityFeePerGas);
    buf, ws := Extend(buf, ws, w);
    buf, ws := Extend(buf, ws, p.requiredClaim);
  }

  method DelegationBuffer(typeHash: Bytes32, d: DelegationCertificate) returns (buf: Bytes)
    ensures buf == Encode(DelegationWords(typeHash, DelegationOnChain(d)))
  {
    ghost var ws: seq<Bytes32> := [];
    buf := [];
    buf, ws := Extend(buf, ws, typeHash);
    var w := AddressToWord(d.delegate);
    buf, ws := Extend(buf, ws, w);
    w := Bytes4ToWord(d.scope);
    buf, ws := Extend(buf, ws, w);
    w := U128ToWord(d.maxValue);
    buf, ws := Extend(buf, ws, w);
    w := U64ToWord(d.expiration);
    buf, ws := Extend(buf, ws, w);
    w := U64ToWord(d.chainId);
    buf, ws := Extend(buf, ws, w);
    w := U64ToWord(d.nonce);
    buf, ws := Extend(buf, ws, w);
    assert ws == DelegationWords(typeHash, DelegationOnChain(d));
  }

  method SessionBuffer(typeHash: Bytes32, p: SessionCertificate) returns (buf: Bytes)
    ensures buf == Encode(SessionWords(typeHash, SessionOnChain(p)))
  {
    ghost var ws: seq<Bytes32> := [];
    buf := [];
    buf, ws := Extend(buf, ws, typeHash);
    var w := AddressToWord(p.session);
    buf, ws := Extend(buf, ws, w);
    w := AddressToWord(p.parent);
    buf, ws := Extend(buf, ws, w);
    w := Bytes4ToWord(p.scope);
    buf, ws := Extend(buf, ws, w);
    w := AddressToWord(p.target);
    buf, ws := Extend(buf, ws, w);
    w := U128ToWord(p.maxValue);
    buf, ws := Extend(buf, ws, w);
    w := U64ToWord(p.expiration);
    buf, ws := Extend(buf, ws, w);
    w := U64ToWord(p.chainId);
    buf, ws := Extend(buf, ws, w);
    assert ws == SessionWords(typeHash, SessionOnChain(p));
  }

  method RecoveryBuffer(typeHash: Bytes32, q: RecoveryRequest) returns (buf: Bytes)
    ensures buf == Encode(RecoveryWords(typeHash, RecoveryOnChain(q)))
  {
    ghost var ws: seq<Bytes32> := [];
    buf := [];
    buf, ws := Extend(buf, ws, typeHash);
    var w := AddressToWord(q.oldRoot);
    buf, ws := Extend(buf, ws, w);
    w := AddressToWord(q.newRoot);
    buf, ws := Extend(buf, ws, w);
    w := U64ToWord(q.chainId);
    buf, ws := Extend(buf, ws, w);
    w := U64ToWord(q.nonce);
    buf, ws := Extend(buf, ws, w);
    assert ws == RecoveryWords(typeHash, RecoveryOnChain(q));
  }

  method SigningHash(h: Hash, separator: Bytes32, structHash: Bytes32) returns (hash: Bytes32)
    ensures hash == h(Envelope(separator, structHash))
  {
    var buf: Bytes := [];
    buf := buf + [0x19, 0x01];
    buf := buf + separator;
    buf := buf + structHash;
    assert buf == Envelope(separator, structHash);
    hash := h(buf);
  }

  /** `hash` is the EIP-712 digest of m under the claimed domain. It is what a contract deployed with this hash
      function recovers the signer of m from, exactly when it is deployed on the claimed chain at the
      claimed address, or else the hash has collided. */
  ghost predicate SignsFor(h: Hash, hash: Bytes32, claimed: Domain, m: Message) {
    && hash == Digest(h, claimed, m)
    && forall c: Chain, self: Address :: IsContractAt(c, self) && c.keccak == h ==>
      && (claimed == Domain(c.chainId, self) ==> hash == c.digestOf(m))
      && (hash == c.digestOf(m) ==>
            claimed == Domain(c.chainId, self) || Collides(h, CollisionOf(h, claimed, m, Domain(c.chainId, self), m)))
  }

  lemma DigestSignsFor(h: Hash, claimed: Domain, m: Message)
    ensures SignsFor(h, Digest(h, claimed, m), claimed, m)
  {
    hide Digest, CollisionOf, Collides;
    forall c: Chain, self: Address | IsContractAt(c, self) && c.keccak == h
      ensures Digest(h, claimed, m) == c.digestOf(m) && claimed != Domain(c.chainId, self) ==>
              Collides(h, CollisionOf(h, claimed, m, Domain(c.chainId, self), m))
      ensures c.digestOf(m) == Digest(h, Domain(c.chainId, self), m)
    {
      ContractDigest(c, self, m);
      if Digest(h, claimed, m) == c.digestOf(m) {
        DigestBindsEveryField(h, claimed, m, Domain(c.chainId, self), m);
      }
    }
  }

  /** What each signing function returns is the EIP-712 digest of its argument, member by member. */
  method IntentSigningHash(h: Hash, p: SovereignIntent, verifyingContract: Bytes20) returns (hash: Bytes32)
    ensures hash == TypedDataDigest(h, DomainStruct(p.chainId, verifyingContract), SovereignIntentStruct(p))
    ensures SignsFor(h, hash, Domain(p.chainId, AddressOf(verifyingContract)), IntentMessage(IntentOnChain(p)))
  {
    hide TypeHash, DomainPreimage, Encode, IntentEncoding, SignsFor, Collides, CollisionOf, TypedDataDigest;
    var ds := DomainSeparator(h, p.chainId, verifyingContract);
    var buf := IntentBuffer(TypeHash(h, IntentType), p);
    hash := SigningHash(h, ds, h(buf));
    DigestSignsFor(h, Domain(p.chainId, AddressOf(verifyingContract)), IntentMessage(IntentOnChain(p)));
    IntentStructOnChain(p);
    AddressBytes(verifyingContract);
    DigestIsEip712(h, Domain(p.chainId, AddressOf(verifyingContract)), IntentMessage(IntentOnChain(p)));
  }

  method DelegationSigningHash(h: Hash, d: DelegationCertificate, verifyingContract: Bytes20) returns (hash: Bytes32)
    ensures hash == TypedDataDigest(h, DomainStruct(d.chainId, verifyingContract), DelegationCertificateStruct(d))
    ensures SignsFor(h, hash, Domain(d.chainId, AddressOf(verifyingContract)), DelegationMessage(DelegationOnChain(d)))
  {
    hide TypeHash, DomainPreimage, Encode, DelegationWords, SignsFor, Collides, CollisionOf, TypedDataDigest;
    var ds := DomainSeparator(h, d.chainId, verifyingContract);
    var buf := DelegationBuffer(TypeHash(h, DelegationType), d);
    hash := SigningHash(h, ds, h(buf));
    DigestSignsFor(h, Domain(d.chainId, AddressOf(verifyingContract)), DelegationMessage(DelegationOnChain(d)));
    DelegationStructOnChain(d);
    AddressBytes(verifyingContract);
    DigestIsEip712(h, Domain(d.chainId, AddressOf(verifyingContract)), DelegationMessage(DelegationOnChain(d)));
  }

  method SessionSigningHash(h: Hash, p: SessionCertificate, verifyingContract: Bytes20) returns (hash: Bytes32)
    ensures hash == TypedDataDigest(h, DomainStruct(p.chainId, verifyingContract), SessionCertificateStruct(p))
    ensures SignsFor(h, hash, Domain(p.chainId, AddressOf(verifyingContract)), SessionMessage(SessionOnChain(p)))
  {
    hide TypeHash, DomainPreimage, Encode, SessionWords, SignsFor, Collides, CollisionOf, TypedDataDigest;
    var ds := DomainSeparator(h, p.chainId, verifyingContract);
    var buf := SessionBuffer(TypeHash(h, SessionType), p);
    hash := SigningHash(h, ds, h(buf));
    DigestSignsFor(h, Domain(p.chainId, AddressOf(verifyingContract)), SessionMessage(SessionOnChain(p)));
    SessionStructOnChain(p);
    AddressBytes(verifyingContract);
    DigestIsEip712(h, Domain(p.chainId, AddressOf(verifyingContract)), SessionMessage(SessionOnChain(p)));
  }

  method RecoverySigningHash(h: Hash, q: RecoveryRequest, verifyingContract: Bytes20) returns (hash: Bytes32)
    ensures hash == TypedDataDigest(h, DomainStruct(q.chainId, verifyingContract), RecoveryRequestStruct(q))
    ensures SignsFor(h, hash, Domain(q.chainId, AddressOf(verifyingContract)), RecoveryMessage(RecoveryOnChain(q)))
  {
    hide TypeHash, DomainPreimage, Encode, RecoveryWords, SignsFor, Collides, CollisionOf, TypedDataDigest;
    var ds := DomainSeparator(h, q.chainId, verifyingContract);
    var buf := RecoveryBuffer(TypeHash(h, RecoveryType), q);
    hash := SigningHash(h, ds, h(buf));
    DigestSignsFor(h, Domain(q.chainId, AddressOf(verifyingContract)), RecoveryMessage(RecoveryOnChain(q)));
    RecoveryStructOnChain(q);
    AddressBytes(verifyingContract);
    DigestIsEip712(h, Domain(q.chainId, AddressOf(verifyingContract)), RecoveryMessage(RecoveryOnChain(q)));
  }

  // Different byte addresses are different numbers, so nothing is confused on the way on chain.
  lemma AddressesStayApart(a: Bytes20, b: Bytes20)
    requires AddressOf(a) == AddressOf(b)
    ensures a == b
  {
    BigEndianOfValue(a);
    BigEndianOfValue(b);
  }

  // ---------------------------------------------------------------------------
  // UserOperationBuilder
  // ---------------------------------------------------------------------------

  datatype PackedUserOperation = PackedUserOperation(
    sender: Bytes20, nonce: Bytes32, initCode: Bytes, callData: Bytes, accountGasLimits: Bytes32,
    preVerificationGas: Bytes32, gasFees: Bytes32, paymasterAndData: Bytes, signature: Bytes)

  class UserOperationBuilder {
    const sender: Bytes20
    var nonce: Uint64
    var callData: Bytes
    var callGasLimit: Uint128
    var verificationGasLimit: Uint128
    var preVerificationGas: Uint128
    var maxFeePerGas: Uint128
    var maxPriorityFeePerGas: Uint128
    var initCode: Bytes
    var paymasterAndData: Bytes

    constructor (sender: Bytes20)
      ensures this.sender == sender && nonce == 0 && callData == [] && initCode == [] && paymasterAndData == []
      ensures callGasLimit == verificationGasLimit == preVerificationGas == maxFeePerGas == maxPriorityFeePerGas == 0
    {
      this.sender := sender;
      nonce, callData, initCode, paymasterAndData := 0, [], [], [];
      callGasLimit, verificationGasLimit, preVerificationGas, maxFeePerGas, maxPriorityFeePerGas := 0, 0, 0, 0, 0;
    }

    method SetNonce(n: Uint64)
      modifies this`nonce
      ensures nonce == n
    {
      nonce := n;
    }

    method SetGas(callGas: Uint128, verificationGas: Uint128, preGas: Uint128, maxFee: Uint128, maxPriorityFee: Uint128)
      modifies this`callGasLimit, this`verificationGasLimit, this`preVerificationGas, this`maxFeePerGas,
               this`maxPriorityFeePerGas
      ensures callGasLimit == callGas && verificationGasLimit == verificationGas && preVerificationGas == preGas
      ensures maxFeePerGas == maxFee && maxPriorityFeePerGas == maxPriorityFee
    {
      callGasLimit := callGas;
      verificationGasLimit := verificationGas;
      preVerificationGas := preGas;
      maxFeePerGas := maxFee;
      maxPriorityFeePerGas := maxPriorityFee;
    }

    /** Every packed word decodes, big-endian, to what the setters stored: the two halves of the gas
        words in the order callGasLimit, verificationGasLimit and maxFeePerGas, maxPriorityFeePerGas. */
    method Build(signaturePayload: Bytes) returns (op: PackedUserOperation)
      ensures op.sender == sender && op.initCode == initCode && op.callData == callData
      ensures op.paymasterAndData == paymasterAndData && op.signature == signaturePayload
      ensures Value(op.nonce) == nonce && Value(op.preVerificationGas) == preVerificationGas
      ensures Value(op.accountGasLimits[..16]) == callGasLimit
      ensures Value(op.accountGasLimits[16..]) == verificationGasLimit
      ensures Value(op.gasFees[..16]) == maxFeePerGas && Value(op.gasFees[16..]) == maxPriorityFeePerGas
    {
      var nonceBytes := LeftPad32(BigEndian(nonce, 8));
      var gasLimits := PackHalves(callGasLimit, verificationGasLimit);
      var preGas := LeftPad32(BigEndian(preVerificationGas, 16));
      var gasFees := PackHalves(maxFeePerGas, maxPriorityFeePerGas);
      Pow256Values();
      LeadingZeros(24, BigEndian(nonce, 8));
      ValueOfBigEndian(nonce, 8);
      LeadingZeros(16, BigEndian(preVerificationGas, 16));
      ValueOfBigEndian(preVerificationGas, 16);
      op := PackedUserOperation(sender, nonceBytes, initCode, callData, gasLimits, preGas, gasFees,
                                paymasterAndData, signaturePayload);
    }
  }

  method PackHalves(high: Uint128, low: Uint128) returns (word: Bytes32)
    ensures Value(word[..16]) == high && Value(word[16..]) == low
  {
    var buffer := new Byte[32](_ => 0);
    var highBytes, lowBytes := BigEndian(high, 16), BigEndian(low, 16);
    forall i | 0 <= i < 16 {
      buffer[i] := highBytes[i];
    }
    forall i | 0 <= i < 16 {
      buffer[16 + i] := lowBytes[i];
    }
    word := buffer[..];
    Pow256Values();
    ValueOfBigEndian(high, 16);
    ValueOfBigEndian(low, 16);
    assert word[..16] == highBytes && word[16..] == lowBytes;
  }

  lemma {:induction false} LeadingZeros(pad: nat, b: Bytes)
    ensures Value(Zeros(pad) + b) == Value(b)
  {
    if b == [] {
      BigEndianOfZero(pad);
      ValueOfBigEndian(0, pad);
      assert Zeros(pad) + [] == Zeros(pad);
    } else {
      LeadingZeros(pad, b[..|b| - 1]);
      assert (Zeros(pad) + b)[..pad + |b| - 1] == Zeros(pad) + b[..|b| - 1];
    }
  }
}
