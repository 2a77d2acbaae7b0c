/** The value types shared by the on-chain and off-chain sides: fixed-width
    integers, byte strings and the default-valued mappings of Solidity storage. */
module Base {

  const TWO_48: nat := 0x1_0000_0000_0000
  const TWO_64: nat := 0x1_0000_0000_0000_0000
  const TWO_128: nat := 0x1_0000_0000_0000_0000_0000_0000_0000_0000
  const TWO_160: nat := 0x1_0000_0000_0000_0000_0000_0000_0000_0000_0000_0000
  const TWO_208: nat := 0x1_0000_0000_0000_0000_0000_0000_0000_0000_0000_0000_0000_0000_0000
  const TWO_256: nat :=
    0x1_0000_0000_0000_0000_0000_0000_0000_0000_0000_0000_0000_0000_0000_0000_0000_0000

  type Byte = b: nat | b < 256
  type Bytes = seq<Byte>
  type Bytes4 = b: Bytes | |b| == 4 witness Zeros(4)
  type Bytes20 = b: Bytes | |b| == 20 witness Zeros(20)
  type Bytes32 = b: Bytes | |b| == 32 witness Zeros(32)

  type Uint48 = n: nat | n < TWO_48
  type Uint64 = n: nat | n < TWO_64
  type Uint128 = n: nat | n < TWO_128
  type Uint256 = n: nat | n < TWO_256

  // An Ethereum address is a 160-bit number; address(0) is the number 0.
  type Address = n: nat | n < TWO_160

  // block.timestamp of a block that holds a transaction.
  type Timestamp = n: nat | 0 < n < TWO_256 witness 1

  datatype Option<+T> = None | Some(value: T)

  datatype Result<+T, +E> = Success(value: T) | Failure(error: E)

  function Zeros(n: nat): (b: Bytes)
    ensures |b| == n
  {
    seq(n, _ => 0)
  }

  // The UTF-8 bytes of an ASCII literal.
  function Ascii(text: string): (b: Bytes)
    ensures |b| == |text|
  {
    seq(|text|, i requires 0 <= i < |text| => text[i] as int % 256)
  }

  // Solidity mappings return the zero value for a key never written.
  function Read<V>(m: map<Address, V>, key: Address, zero: V): V {
    if key in m then m[key] else zero
  }
}
