/** EIP-712, "Definition of encodeType", "Definition of encodeData" and the digest of eth_signTypedData, over structs
    given as lists of typed and named members; and the proof that the contracts follow it for the
    structs of the protocol. */
module Eip712 {
  import opened Base
  import opened Words
  import opened TypedData

  // ---------------------------------------------------------------------------
  // The standard
  // ---------------------------------------------------------------------------

  datatype AbiValue =
    | AddressValue(address: Bytes20) | Bytes4Value(bytes4: Bytes4) | Bytes32Value(bytes32: Bytes32)
    | Uint8Value(uint8: Byte) | Uint64Value(uint64: Uint64) | Uint128Value(uint128: Uint128) | Uint256Value(uint256: Uint256)
    | StringValue(text: string)
  {
    function TypeWord(): string {
      match this
      case AddressValue(_) => "address"
      case Bytes4Value(_) => "bytes4"
      case Bytes32Value(_) => "bytes32"
      case Uint8Value(_) => "uint8"
      case Uint64Value(_) => "uint64"
      case Uint128Value(_) => "uint128"
      case Uint256Value(_) => "uint256"
      case StringValue(_) => "string"
    }

    // Numbers and addresses are aligned to the right of their word, byte strings to the left; text is hashed.
    function Encoded(h: Hash): Bytes32 {
      match this
      case AddressValue(b) => Zeros(12) + b
      case Bytes4Value(b) => b + Zeros(28)
      case Bytes32Value(b) => b
      case Uint8Value(n) => Zeros(31) + BigEndian(n, 1)
      case Uint64Value(n) => Zeros(24) + BigEndian(n, 8)
      case Uint128Value(n) => Zeros(16) + BigEndian(n, 16)
      case Uint256Value(n) => BigEndian(n, 32)
      case StringValue(text) => h(Ascii(text))
    }
  }

  datatype Member = Member(name: string, value: AbiValue)
  {
    function Declaration(): string {
      value.TypeWord() + " " + name
    }
  }

  datatype Struct = Struct(name: string, members: seq<Member>)

  // One more declaration, after a comma if it is not the first.
  function Listed(m: Member, first: bool): string {
    if first then m.Declaration() else "," + m.Declaration()
  }

  function Declarations(head: string, members: seq<Member>): string {
    if members == [] then head
    else
      var n := |members| - 1;
      Declarations(head, members[..n]) + Listed(members[n], n == 0)
  }

  function EncodeType(s: Struct): string {
    Declarations(s.name + "(", s.members) + ")"
  }

  function EncodeData(h: Hash, head: Bytes, members: seq<Member>): Bytes {
    if members == [] then head
    else
      var n := |members| - 1;
      EncodeData(h, head, members[..n]) + members[n].value.Encoded(h)
  }

  function HashStruct(h: Hash, s: Struct): Bytes32 {
    h(EncodeData(h, h(Ascii(EncodeType(s))), s.members))
  }

  function TypedDataDigest(h: Hash, domain: Struct, message: Struct): Bytes32 {
    h([0x19, 0x01] + HashStruct(h, domain) + HashStruct(h, message))
  }

  // ---------------------------------------------------------------------------
  // The structs of the protocol
  // ---------------------------------------------------------------------------

  function DomainStruct(chainId: Uint256, contract: Bytes20): Struct {
    Struct("EIP712Domain",
           [Member("name", StringValue("HuntKey")), Member("version", StringValue("1")),
            Member("chainId", Uint256Value(chainId)), Member("verifyingContract", AddressValue(contract))])
  }

  // As the contracts hold them, with addresses as numbers.
  function IntentStruct(p: Intent): Struct {
    Struct("SovereignIntent",
           [Member("targetContract", AddressValue(BigEndian(p.targetContract, 20))),
            Member("functionSig", Bytes4Value(p.functionSig)),
            Member("recipient", AddressValue(BigEndian(p.recipient, 20))),
            Member("assetAddress", AddressValue(BigEndian(p.assetAddress, 20))),
            Member("callDataHash", Bytes32Value(p.callDataHash)), Member("maxValue", Uint128Value(p.maxValue)),
            Member("expiration", Uint64Value(p.expiration)), Member("chainId", Uint64Value(p.chainId)),
            Member("nonce", Uint64Value(p.nonce)), Member("sessionEpoch", Uint64Value(p.sessionEpoch)),
            Member("gasLimit", Uint64Value(p.gasLimit)), Member("maxFeePerGas", Uint128Value(p.maxFeePerGas)),
            Member("maxPriorityFeePerGas", Uint128Value(p.maxPriorityFeePerGas)),
            Member("requiredClaim", Bytes32Value(p.requiredClaim)),
            Member("claimProofHash", Bytes32Value(p.claimProofHash)),
            Member("paymasterMode", Uint8Value(p.paymasterMode)),
            Member("paymaster", AddressValue(BigEndian(p.paymaster, 20)))])
  }

  function DelegationStruct(d: Delegation): Struct {
    Struct("DelegationCertificate",
           [Member("delegate", AddressValue(BigEndian(d.delegate, 20))), Member("scope", Bytes4Value(d.scope)),
            Member("maxValue", Uint128Value(d.maxValue)), Member("expiration", Uint64Value(d.expiration)),
            Member("chainId", Uint64Value(d.chainId)), Member("nonce", Uint64Value(d.nonce))])
  }

  function SessionStruct(p: Session): Struct {
    Struct("SessionCertificate",
           [Member("session", AddressValue(BigEndian(p.session, 20))),
            Member("parent", AddressValue(BigEndian(p.parent, 20))), Member("scope", Bytes4Value(p.scope)),
            Member("target", AddressValue(BigEndian(p.target, 20))), Member("maxValue", Uint128Value(p.maxValue)),
            Member("expiration", Uint64Value(p.expiration)), Member("chainId", Uint64Value(p.chainId))])
  }

  function RecoveryStruct(q: Recovery): Struct {
    Struct("RecoveryRequest",
           [Member("oldRoot", AddressValue(BigEndian(q.oldRoot, 20))),
            Member("newRoot", AddressValue(BigEndian(q.newRoot, 20))), Member("chainId", Uint64Value(q.chainId)),
            Member("nonce", Uint64Value(q.nonce))])
  }

  function StructOf(m: Message): Struct {
    match m
    case IntentMessage(p) => IntentStruct(p)
    case DelegationMessage(d) => DelegationStruct(d)
    case SessionMessage(p) => SessionStruct(p)
    case RecoveryMessage(q) => RecoveryStruct(q)
  }

  // ---------------------------------------------------------------------------
  // The type strings
  // ---------------------------------------------------------------------------

  // The type word of a later member, with the comma before it.
  function CommaWord(v: AbiValue): string {
    match v
    case AddressValue(_) => ",address "
    case Bytes4Value(_) => ",bytes4 "
    case Bytes32Value(_) => ",bytes32 "
    case Uint8Value(_) => ",uint8 "
    case Uint64Value(_) => ",uint64 "
    case Uint128Value(_) => ",uint128 "
    case Uint256Value(_) => ",uint256 "
    case StringValue(_) => ",string "
  }

  lemma CommaSpelled(v: AbiValue)
    ensures "," + (v.TypeWord() + " ") == CommaWord(v)
  {
  }

  lemma NextDeclaration(head: string, members: seq<Member>, i: nat)
    requires 0 < i < |members|
    ensures Declarations(head, members[..i + 1])
            == Declarations(head, members[..i]) + (CommaWord(members[i].value) + members[i].name)
  {
    var m := members[i];
    assert members[..i + 1][..i] == members[..i];
    CommaSpelled(m.value);
    assert Listed(m, false) == "," + (m.value.TypeWord() + " ") + m.name;
  }

  lemma NoDeclaration(head: string)
    ensures Declarations(head, []) == head
  {
  }

  lemma FirstDeclaration(head: string, members: seq<Member>)
    requires members != []
    ensures members[0].value.AddressValue? ==> Declarations(head, members[..1]) == head + ("address " + members[0].name)
    ensures members[0].value.StringValue? ==> Declarations(head, members[..1]) == head + ("string " + members[0].name)
  {
    assert members[..1][..0] == [];
    NoDeclaration(head);
    assert "address" + " " == "address " && "string" + " " == "string ";
  }

  lemma IntentTypeHeadIsSpelled(p: Intent)
    ensures Declarations("SovereignIntent" + "(", IntentStruct(p).members[..6]) == IntentTypeHead()
  {
    hide Listed, Declarations;
    var (head, ms) := ("SovereignIntent" + "(", IntentStruct(p).members);
    FirstDeclaration(head, ms);
    NextDeclaration(head, ms, 1);
    NextDeclaration(head, ms, 2);
    NextDeclaration(head, ms, 3);
    NextDeclaration(head, ms, 4);
    NextDeclaration(head, ms, 5);
  }

  lemma IntentTypeBodyIsSpelled(p: Intent)
    ensures Declarations("SovereignIntent" + "(", IntentStruct(p).members[..12]) == IntentTypeBody()
  {
    hide Listed, Declarations, IntentTypeHead;
    var (head, ms) := ("SovereignIntent" + "(", IntentStruct(p).members);
    IntentTypeHeadIsSpelled(p);
    NextDeclaration(head, ms, 6);
    NextDeclaration(head, ms, 7);
    NextDeclaration(head, ms, 8);
    NextDeclaration(head, ms, 9);
    NextDeclaration(head, ms, 10);
    NextDeclaration(head, ms, 11);
  }

  lemma IntentTypeTailIsSpelled(p: Intent)
    ensures Declarations("SovereignIntent" + "(", IntentStruct(p).members[..15]) == IntentTypeTail()
  {
    hide Listed, Declarations, AbiValue.Encoded, AbiValue.TypeWord, IntentTypeBody;
    var (head, ms) := ("SovereignIntent" + "(", IntentStruct(p).members);
    IntentTypeBodyIsSpelled(p);
    NextDeclaration(head, ms, 12);
    NextDeclaration(head, ms, 13);
    NextDeclaration(head, ms, 14);
  }

  lemma IntentTypeIsSpelled(p: Intent)
    ensures EncodeType(IntentStruct(p)) == TypeString(IntentType)
  {
    hide Listed, Declarations, AbiValue.Encoded, AbiValue.TypeWord, IntentTypeTail;
    var (head, ms) := ("SovereignIntent" + "(", IntentStruct(p).members);
    IntentTypeTailIsSpelled(p);
    NextDeclaration(head, ms, 15);
    NextDeclaration(head, ms, 16);
    assert ms[..17] == ms;
  }

  lemma DelegationTypeHeadIsSpelled(d: Delegation)
    ensures Declarations("DelegationCertificate" + "(", DelegationStruct(d).members[..3]) == DelegationTypeHead()
  {
    hide Listed, Declarations, AbiValue.Encoded, AbiValue.TypeWord;
    var (head, ms) := ("DelegationCertificate" + "(", DelegationStruct(d).members);
    FirstDeclaration(head, ms);
    NextDeclaration(head, ms, 1);
    NextDeclaration(head, ms, 2);
  }

  lemma DelegationTypeIsSpelled(d: Delegation)
    ensures EncodeType(DelegationStruct(d)) == TypeString(DelegationType)
  {
    hide Listed, Declarations, AbiValue.Encoded, AbiValue.TypeWord, DelegationTypeHead;
    var (head, ms) := ("DelegationCertificate" + "(", DelegationStruct(d).members);
    DelegationTypeHeadIsSpelled(d);
    NextDeclaration(head, ms, 3);
    NextDeclaration(head, ms, 4);
    NextDeclaration(head, ms, 5);
    assert ms[..6] == ms;
  }

  lemma SessionTypeHeadIsSpelled(p: Session)
    ensures Declarations("SessionCertificate" + "(", SessionStruct(p).members[..4]) == SessionTypeHead()
  {
    hide Listed, Declarations, AbiValue.Encoded, AbiValue.TypeWord;
    var (head, ms) := ("SessionCertificate" + "(", SessionStruct(p).members);
    FirstDeclaration(head, ms);
    NextDeclaration(head, ms, 1);
    NextDeclaration(head, ms, 2);
    NextDeclaration(head, ms, 3);
  }

  lemma SessionTypeIsSpelled(p: Session)
    ensures EncodeType(SessionStruct(p)) == TypeString(SessionType)
  {
    hide Listed, Declarations, AbiValue.Encoded, AbiValue.TypeWord, SessionTypeHead;
    var (head, ms) := ("SessionCertificate" + "(", SessionStruct(p).members);
    SessionTypeHeadIsSpelled(p);
    NextDeclaration(head, ms, 4);
    NextDeclaration(head, ms, 5);
    NextDeclaration(head, ms, 6);
    assert ms[..7] == ms;
  }

  lemma RecoveryTypeIsSpelled(q: Recovery)
    ensures EncodeType(RecoveryStruct(q)) == TypeString(RecoveryType)
  {
    hide Listed, Declarations, AbiValue.Encoded, AbiValue.TypeWord;
    var (head, ms) := ("RecoveryRequest" + "(", RecoveryStruct(q).members);
    FirstDeclaration(head, ms);
    NextDeclaration(head, ms, 1);
    NextDeclaration(head, ms, 2);
    NextDeclaration(head, ms, 3);
    assert ms[..4] == ms;
  }

  lemma DomainTypeIsSpelled(chainId: Uint256, contract: Bytes20)
    ensures EncodeType(DomainStruct(chainId, contract)) == TypeString(DomainType)
  {
    hide Listed, Declarations, AbiValue.Encoded, AbiValue.TypeWord;
    var (head, ms) := ("EIP712Domain" + "(", DomainStruct(chainId, contract).members);
    FirstDeclaration(head, ms);
    NextDeclaration(head, ms, 1);
    NextDeclaration(head, ms, 2);
    NextDeclaration(head, ms, 3);
    assert ms[..4] == ms;
  }

  // ---------------------------------------------------------------------------
  // The encodings
  // ---------------------------------------------------------------------------

  lemma {:induction false} WordsEncodeMembers(h: Hash, words: seq<Bytes32>, members: seq<Member>)
    requires |words| == |members| + 1
    requires forall i :: 0 <= i < |members| ==> words[i + 1] == members[i].value.Encoded(h)
    ensures Encode(words) == EncodeData(h, words[0], members)
  {
    hide AbiValue.Encoded;
    var n := |members|;
    if n == 0 {
      assert words == [words[0]] && words[..0] == [];
    } else {
      assert words[..n][0] == words[0];
      WordsEncodeMembers(h, words[..n], members[..n - 1]);
    }
  }

  // A number written into a whole word is the number at its own width, after zeros.
  lemma AddressWord(a: Address)
    ensures UintWord(a) == Zeros(12) + BigEndian(a, 20)
  {
    Pow256Values();
    BigEndianPads(a, 20, 12);
  }

  lemma Uint64Word(n: Uint64)
    ensures UintWord(n) == Zeros(24) + BigEndian(n, 8)
  {
    Pow256Values();
    BigEndianPads(n, 8, 24);
  }

  lemma Uint128Word(n: Uint128)
    ensures UintWord(n) == Zeros(16) + BigEndian(n, 16)
  {
    Pow256Values();
    BigEndianPads(n, 16, 16);
  }

  lemma Uint8Word(n: Byte)
    ensures UintWord(n) == Zeros(31) + BigEndian(n, 1)
  {
    assert Pow256(1) == 256 * Pow256(0);
    BigEndianPads(n, 1, 31);
  }

  lemma IntentData(h: Hash, t: Bytes32, p: Intent)
    ensures IntentEncoding(t, p) == EncodeData(h, t, IntentStruct(p).members)
  {
    hide UintWord, IntentEncoding, Encode, EncodeData;
    AddressWord(p.targetContract);
    AddressWord(p.recipient);
    AddressWord(p.assetAddress);
    Uint128Word(p.maxValue);
    Uint64Word(p.expiration);
    Uint64Word(p.chainId);
    Uint64Word(p.nonce);
    Uint64Word(p.sessionEpoch);
    Uint64Word(p.gasLimit);
    Uint128Word(p.maxFeePerGas);
    Uint128Word(p.maxPriorityFeePerGas);
    Uint8Word(p.paymasterMode);
    AddressWord(p.paymaster);
    IntentEncodingIsFlat(t, p);
    WordsEncodeMembers(h, IntentFirst(t, p) + IntentSecond(p) + IntentThird(p), IntentStruct(p).members);
  }

  lemma DelegationData(h: Hash, t: Bytes32, d: Delegation)
    ensures Encode(DelegationWords(t, d)) == EncodeData(h, t, DelegationStruct(d).members)
  {
    hide UintWord, Encode, EncodeData;
    AddressWord(d.delegate);
    Uint128Word(d.maxValue);
    Uint64Word(d.expiration);
    Uint64Word(d.chainId);
    Uint64Word(d.nonce);
    WordsEncodeMembers(h, DelegationWords(t, d), DelegationStruct(d).members);
  }

  lemma SessionData(h: Hash, t: Bytes32, p: Session)
    ensures Encode(SessionWords(t, p)) == EncodeData(h, t, SessionStruct(p).members)
  {
    hide UintWord, Encode, EncodeData;
    AddressWord(p.session);
    AddressWord(p.parent);
    AddressWord(p.target);
    Uint128Word(p.maxValue);
    Uint64Word(p.expiration);
    Uint64Word(p.chainId);
    WordsEncodeMembers(h, SessionWords(t, p), SessionStruct(p).members);
  }

  lemma RecoveryData(h: Hash, t: Bytes32, q: Recovery)
    ensures Encode(RecoveryWords(t, q)) == EncodeData(h, t, RecoveryStruct(q).members)
  {
    hide UintWord, Encode, EncodeData;
    AddressWord(q.oldRoot);
    AddressWord(q.newRoot);
    Uint64Word(q.chainId);
    Uint64Word(q.nonce);
    WordsEncodeMembers(h, RecoveryWords(t, q), RecoveryStruct(q).members);
  }

  lemma DomainHash(h: Hash, d: Domain)
    ensures h(DomainPreimage(h, d)) == HashStruct(h, DomainStruct(d.chainId, BigEndian(d.verifyingContract, 20)))
  {
    var (s, t) := (DomainStruct(d.chainId, BigEndian(d.verifyingContract, 20)), TypeHash(h, DomainType));
    DomainTypeIsSpelled(d.chainId, BigEndian(d.verifyingContract, 20));
    hide Encode, EncodeData, EncodeType, TypeString;
    AddressWord(d.verifyingContract);
    WordsEncodeMembers(h, DomainWords(t, h(Ascii("HuntKey")), h(Ascii("1")), d), s.members);
  }

  lemma MessageHash(h: Hash, m: Message)
    ensures h(Preimage(h, m)) == HashStruct(h, StructOf(m))
  {
    hide Encode, EncodeData, EncodeType, TypeString, IntentEncoding;
    match m {
      case IntentMessage(p) =>
        IntentTypeIsSpelled(p);
        IntentData(h, TypeHash(h, IntentType), p);
      case DelegationMessage(d) =>
        DelegationTypeIsSpelled(d);
        DelegationData(h, TypeHash(h, DelegationType), d);
      case SessionMessage(p) =>
        SessionTypeIsSpelled(p);
        SessionData(h, TypeHash(h, SessionType), p);
      case RecoveryMessage(q) =>
        RecoveryTypeIsSpelled(q);
        RecoveryData(h, TypeHash(h, RecoveryType), q);
    }
  }

  /** The digest the contracts recover signers from is the EIP-712 digest of the message's members, in the order and
      with the types of the type string, under the domain of name HuntKey and version 1. */
  lemma DigestIsEip712(h: Hash, d: Domain, m: Message)
    ensures Digest(h, d, m) == TypedDataDigest(h, DomainStruct(d.chainId, BigEndian(d.verifyingContract, 20)), StructOf(m))
  {
    hide DomainPreimage, Preimage, HashStruct;
    DomainHash(h, d);
    MessageHash(h, m);
  }
}
