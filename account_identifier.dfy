/**
 * The legacy ICP account identifier of a principal (src/utils/accountIdentifier.ts):
 *
 *   payload = 0x0A "account-id" ++ principal ++ 32 zero bytes   (all-zero subaccount)
 *   digest  = SHA-224(payload)                                   (28 bytes)
 *   id      = CRC-32(digest) as 4 big-endian bytes ++ digest     (32 bytes)
 *   result  = id as 64 lower-case hexadecimal characters
 *
 * The CRC is CRC-32/ISO-HDLC (ISO/IEC 13239, ITU-T V.42): reflected polynomial
 * 0xEDB88320, initial register 0xFFFFFFFF, final XOR 0xFFFFFFFF, computed with a
 * 256-entry table.  SHA-224 is a library call; it enters the model as the
 * parameter `sha224`, about which nothing is assumed except its 28-byte output.
 */
module AccountIdentifier {
  import opened Common

  /** A byte of a `Uint8Array`, kept in a 32-bit word so that the CRC needs no widening. */
  type Byte = x: bv32 | x < 256

  /** A SHA-224 digest. */
  type Digest = d: seq<Byte> | |d| == 28 witness seq(28, _ => 0)

  // ---------------------------------------------------------------------------
  // The hashed payload
  // ---------------------------------------------------------------------------

  /** The domain separator written in the source as the string "\x0Aaccount-id". */
  const DomainTag: string := "\naccount-id"

  /** The same separator as the bytes `TextEncoder` produces for it. */
  const DomainSeparator: seq<Byte> := [0x0A, 0x61, 0x63, 0x63, 0x6F, 0x75, 0x6E, 0x74, 0x2D, 0x69, 0x64]

  /** The subaccount: always 32 zero bytes. */
  function ZeroSubaccount(): seq<Byte> {
    seq(32, _ => 0)
  }

  /** The separator bytes are the UTF-8 (here: ASCII) encoding of the tag. */
  lemma DomainSeparatorEncodesTag()
    ensures |DomainSeparator| == |DomainTag| == 11
    ensures forall i :: 0 <= i < 11 ==> DomainSeparator[i] as int == DomainTag[i] as int
  {
  }

  /** The bytes that are hashed: separator, principal, zero subaccount. */
  function Payload(principal: seq<Byte>): (p: seq<Byte>)
    ensures |p| == 43 + |principal|
    ensures p[..11] == DomainSeparator && p[0] == 0x0A
    ensures p[11..11 + |principal|] == principal
    ensures forall i :: 11 + |principal| <= i < |p| ==> p[i] == 0
  {
    DomainSeparator + principal + ZeroSubaccount()
  }

  /** The payload determines the principal: distinct principals are hashed as distinct inputs. */
  lemma PayloadInjective(p1: seq<Byte>, p2: seq<Byte>)
    requires Payload(p1) == Payload(p2)
    ensures p1 == p2
  {
    assert |p1| == |p2|;
    assert p1 == Payload(p1)[11..11 + |p1|];
  }

  // ---------------------------------------------------------------------------
  // CRC-32: the bitwise rule, the table and the byte step
  // ---------------------------------------------------------------------------

  const Polynomial: bv32 := 0xEDB88320

  /** One bit of the reflected division: the rule used to fill the table. */
  function BitStep(c: bv32): bv32 {
    if c & 1 == 1 then Polynomial ^ (c >> 1) else c >> 1
  }

  /** `n` applications of the bitwise rule. */
  function BitSteps(c: bv32, n: nat): bv32 {
    if n == 0 then c else BitStep(BitSteps(c, n - 1))
  }

  /** Entry `i` of the CRC table: eight bitwise steps from `i`. */
  function TableEntry(i: Byte): bv32 {
    BitSteps(i, 8)
  }

  /** The table-driven step for one byte: `table[(crc ^ b) & 0xFF] ^ (crc >>> 8)`. */
  function ByteStep(crc: bv32, b: Byte): bv32 {
    TableEntry((crc ^ b) & 0xFF) ^ (crc >> 8)
  }

  /** The register after the table-driven loop has consumed the first `n` bytes of `data`. */
  function RegisterAt(data: seq<Byte>, n: nat): bv32
    requires n <= |data|
  {
    if n == 0 then 0xFFFF_FFFF else ByteStep(RegisterAt(data, n - 1), data[n - 1])
  }

  /** The CRC-32 of `data` as the table-driven loop computes it. */
  function Crc32(data: seq<Byte>): bv32 {
    Finish(RegisterAt(data, |data|))
  }

  /** The final XOR that ends both the table-driven and the bitwise computation. */
  function Finish(register: bv32): bv32 {
    register ^ 0xFFFF_FFFF
  }

  /** The reference register: feed each byte into the register, then eight bitwise steps. */
  function BitwiseAt(data: seq<Byte>, n: nat): bv32
    requires n <= |data|
  {
    if n == 0 then 0xFFFF_FFFF else BitSteps(BitwiseAt(data, n - 1) ^ data[n - 1], 8)
  }

  /** The reference CRC-32, computed bit by bit. */
  function BitwiseCrc32(data: seq<Byte>): bv32 {
    Finish(BitwiseAt(data, |data|))
  }

  /** The table of the source holds the values the standard gives for the reflected polynomial. */
  lemma TableLandmarks()
    ensures TableEntry(0) == 0
    ensures TableEntry(1) == 0x7707_3096
    ensures TableEntry(128) == Polynomial
    ensures TableEntry(255) == 0x2D02_EF8D
  {
  }

  /** The empty input has CRC 0: the initial register is cancelled by the final XOR. */
  lemma Crc32OfEmpty()
    ensures Crc32([]) == 0
  {
  }

  // --- linearity of the bitwise rule over XOR --------------------------------

  /** `z` is the exclusive or of `x` and `y` (kept as a predicate so that the solver does not expand it eagerly). */
  predicate XorOf(z: bv32, x: bv32, y: bv32) {
    z == x ^ y
  }

  lemma LowBitOfXor(a: bv32, b: bv32)
    ensures ((a ^ b) & 1 == 1) == ((a & 1 == 1) != (b & 1 == 1))
  {
  }

  lemma ShiftOfXor(a: bv32, b: bv32)
    ensures (a ^ b) >> 1 == (a >> 1) ^ (b >> 1)
  {
  }

  lemma PolynomialCancels(a: bv32, b: bv32)
    ensures (Polynomial ^ a) ^ (Polynomial ^ b) == a ^ b
  {
  }

  lemma PolynomialLeft(a: bv32, b: bv32)
    ensures (Polynomial ^ a) ^ b == Polynomial ^ (a ^ b)
  {
  }

  lemma PolynomialRight(a: bv32, b: bv32)
    ensures a ^ (Polynomial ^ b) == Polynomial ^ (a ^ b)
  {
  }

  lemma BitStepXor(a: bv32, b: bv32)
    ensures BitStep(a ^ b) == BitStep(a) ^ BitStep(b)
  {
    LowBitOfXor(a, b);
    ShiftOfXor(a, b);
    PolynomialCancels(a >> 1, b >> 1);
    PolynomialLeft(a >> 1, b >> 1);
    PolynomialRight(a >> 1, b >> 1);
  }

  /** The bitwise rule is linear over XOR. */
  lemma BitStepLinear(x: bv32, y: bv32, z: bv32)
    requires XorOf(z, x, y)
    ensures XorOf(BitStep(z), BitStep(x), BitStep(y))
  {
    BitStepXor(x, y);
  }

  /** Hence so is every number of bitwise steps. */
  lemma {:induction false} BitStepsLinear(x: bv32, y: bv32, z: bv32, n: nat)
    requires XorOf(z, x, y)
    ensures XorOf(BitSteps(z, n), BitSteps(x, n), BitSteps(y, n))
  {
    if n > 0 {
      BitStepsLinear(x, y, z, n - 1);
      BitStepLinear(BitSteps(x, n - 1), BitSteps(y, n - 1), BitSteps(z, n - 1));
    }
  }

  lemma UnfoldBitSteps(c: bv32, n: nat)
    ensures BitSteps(c, n + 1) == BitStep(BitSteps(c, n))
  {
  }

  lemma EvenStep(c: bv32, mask: bv32)
    requires c & mask == 0 && mask & 1 == 1
    ensures BitStep(c) == c >> 1 && (c >> 1) & (mask >> 1) == 0
  {
  }

  lemma ShiftByEight(h: bv32)
    ensures ((((((((h >> 1) >> 1) >> 1) >> 1) >> 1) >> 1) >> 1) >> 1) == h >> 8
  {
  }

  /** A register whose low byte is zero only shifts during eight bitwise steps. */
  lemma HighByteSteps(h: bv32)
    requires h & 0xFF == 0
    ensures BitSteps(h, 8) == h >> 8
  {
    var c0 := h;
    EvenStep(c0, 0xFF); UnfoldBitSteps(h, 0); var c1 := c0 >> 1; assert BitSteps(h, 1) == c1;
    EvenStep(c1, 0x7F); UnfoldBitSteps(h, 1); var c2 := c1 >> 1; assert BitSteps(h, 2) == c2;
    EvenStep(c2, 0x3F); UnfoldBitSteps(h, 2); var c3 := c2 >> 1; assert BitSteps(h, 3) == c3;
    EvenStep(c3, 0x1F); UnfoldBitSteps(h, 3); var c4 := c3 >> 1; assert BitSteps(h, 4) == c4;
    EvenStep(c4, 0x0F); UnfoldBitSteps(h, 4); var c5 := c4 >> 1; assert BitSteps(h, 5) == c5;
    EvenStep(c5, 0x07); UnfoldBitSteps(h, 5); var c6 := c5 >> 1; assert BitSteps(h, 6) == c6;
    EvenStep(c6, 0x03); UnfoldBitSteps(h, 6); var c7 := c6 >> 1; assert BitSteps(h, 7) == c7;
    EvenStep(c7, 0x01); UnfoldBitSteps(h, 7); assert BitSteps(h, 8) == c7 >> 1;
    ShiftByEight(h);
  }

  lemma SplitFed(crc: bv32, b: Byte)
    ensures XorOf(crc ^ b, (crc ^ b) & 0xFF, crc & 0xFFFF_FF00)
  {
  }

  lemma HighPart(crc: bv32)
    ensures (crc & 0xFFFF_FF00) & 0xFF == 0
    ensures (crc & 0xFFFF_FF00) >> 8 == crc >> 8
  {
  }

  lemma HighPartSteps(crc: bv32)
    ensures BitSteps(crc & 0xFFFF_FF00, 8) == crc >> 8
  {
    HighPart(crc);
    HighByteSteps(crc & 0xFFFF_FF00);
  }

  lemma FedSteps(crc: bv32, b: Byte)
    ensures XorOf(BitSteps(crc ^ b, 8), BitSteps((crc ^ b) & 0xFF, 8), BitSteps(crc & 0xFFFF_FF00, 8))
  {
    SplitFed(crc, b);
    BitStepsLinear((crc ^ b) & 0xFF, crc & 0xFFFF_FF00, crc ^ b, 8);
  }

  /** The table-driven byte step equals eight applications of the bitwise rule. */
  lemma ByteStepIsEightBitSteps(crc: bv32, b: Byte)
    ensures ByteStep(crc, b) == BitSteps(crc ^ b, 8)
  {
    FedSteps(crc, b);
    HighPartSteps(crc);
  }

  /** The table-driven loop computes the same register as the bitwise reference, byte after byte. */
  lemma {:induction false} RegisterIsBitwise(data: seq<Byte>, n: nat)
    requires n <= |data|
    ensures RegisterAt(data, n) == BitwiseAt(data, n)
  {
    if n > 0 {
      RegisterIsBitwise(data, n - 1);
      ByteStepIsEightBitSteps(RegisterAt(data, n - 1), data[n - 1]);
    }
  }

  /** Hence the table-driven CRC is the bitwise CRC on every input. */
  lemma Crc32IsBitwise(data: seq<Byte>)
    ensures Crc32(data) == BitwiseCrc32(data)
  {
    FinalRegisterIsBitwise(data);
  }

  lemma FinalRegisterIsBitwise(data: seq<Byte>)
    ensures RegisterAt(data, |data|) == BitwiseAt(data, |data|)
  {
    RegisterIsBitwise(data, |data|);
  }

  /** The ASCII digits "123456789", the input of the standard check value. */
  const CheckInput: seq<Byte> := [0x31, 0x32, 0x33, 0x34, 0x35, 0x36, 0x37, 0x38, 0x39]

  /** One more byte of the reference register, with the intermediate values named. */
  lemma BitwisePrefix(data: seq<Byte>, k: nat, before: bv32, fed: bv32, after: bv32)
    requires k < |data|
    requires BitwiseAt(data, k) == before
    requires before ^ data[k] == fed && BitSteps(fed, 8) == after
    ensures BitwiseAt(data, k + 1) == after
  {
  }

  /** The eight-step updates the register goes through on the first three check digits. */
  lemma CheckInputFirstSteps()
    ensures BitSteps(0xFFFF_FFCE, 8) == 0x7C23_1048
    ensures BitSteps(0x7C23_107A, 8) == 0xB0AC_BB32
    ensures BitSteps(0xB0AC_BB01, 8) == 0x77B7_9C2D
  {
  }

  /** ... on the middle three check digits. */
  lemma CheckInputMiddleSteps()
    ensures BitSteps(0x77B7_9C19, 8) == 0x641C_1F5C
    ensures BitSteps(0x641C_1F69, 8) == 0x340A_C5E3
    ensures BitSteps(0x340A_C5D5, 8) == 0xF68D_2C9E
  {
  }

  /** ... on the last three check digits. */
  lemma CheckInputLastSteps()
    ensures BitSteps(0xF68D_2CA9, 8) == 0xAFFC_9660
    ensures BitSteps(0xAFFC_9658, 8) == 0x651F_2550
    ensures BitSteps(0x651F_2569, 8) == 0x340B_C6D9
  {
  }

  lemma CheckInputFirstThird()
    ensures BitwiseAt(CheckInput, 3) == 0x77B7_9C2D
  {
    CheckInputFirstSteps();
    BitwisePrefix(CheckInput, 0, 0xFFFF_FFFF, 0xFFFF_FFCE, 0x7C23_1048);
    BitwisePrefix(CheckInput, 1, 0x7C23_1048, 0x7C23_107A, 0xB0AC_BB32);
    BitwisePrefix(CheckInput, 2, 0xB0AC_BB32, 0xB0AC_BB01, 0x77B7_9C2D);
  }

  lemma CheckInputSecondThird()
    ensures BitwiseAt(CheckInput, 6) == 0xF68D_2C9E
  {
    CheckInputFirstThird();
    CheckInputMiddleSteps();
    BitwisePrefix(CheckInput, 3, 0x77B7_9C2D, 0x77B7_9C19, 0x641C_1F5C);
    BitwisePrefix(CheckInput, 4, 0x641C_1F5C, 0x641C_1F69, 0x340A_C5E3);
    BitwisePrefix(CheckInput, 5, 0x340A_C5E3, 0x340A_C5D5, 0xF68D_2C9E);
  }

  /** The check value of CRC-32/ISO-HDLC: the CRC of the ASCII digits "123456789" is 0xCBF43926. */
  lemma Crc32CheckValue()
    ensures Crc32(CheckInput) == 0xCBF4_3926
  {
    CheckInputSecondThird();
    CheckInputLastSteps();
    BitwisePrefix(CheckInput, 6, 0xF68D_2C9E, 0xF68D_2CA9, 0xAFFC_9660);
    BitwisePrefix(CheckInput, 7, 0xAFFC_9660, 0xAFFC_9658, 0x651F_2550);
    BitwisePrefix(CheckInput, 8, 0x651F_2550, 0x651F_2569, 0x340B_C6D9);
    Crc32IsBitwise(CheckInput);
  }

  // ---------------------------------------------------------------------------
  // CRC-32: the imperative computation of calculateCRC32
  // ---------------------------------------------------------------------------

  /** The inner loop of the table construction: eight bitwise steps from `i`. */
  method ComputeTableEntry(i: Byte) returns (c: bv32)
    ensures c == TableEntry(i)
  {
    c := i;
    for j := 0 to 8
      invariant c == BitSteps(i, j)
    {
      UnfoldBitSteps(i, j);
      c := if c & 1 == 1 then Polynomial ^ (c >> 1) else c >> 1;
    }
  }

  /** Fills a `Uint32Array(256)` with the CRC table, entry by entry. */
  method BuildCrcTable() returns (table: array<bv32>)
    ensures fresh(table) && table.Length == 256
    ensures forall k: Byte :: table[k] == TableEntry(k)
  {
    table := new bv32[256];
    var i: bv32 := 0;
    while i < 256
      invariant i <= 256
      invariant forall k: Byte :: k < i ==> table[k] == TableEntry(k)
      decreases 256 - i
    {
      var c := ComputeTableEntry(i);
      TableStep(table[..], i, TableEntry);
      table[i] := c;
      i := i + 1;
    }
  }

  /** Setting entry `i` extends the filled part of the table by one entry. */
  lemma TableStep(t: seq<bv32>, i: Byte, entry: Byte -> bv32)
    requires |t| == 256 && i < 256
    requires forall k: Byte :: k < i ==> t[k] == entry(k)
    ensures forall k: Byte :: k < i + 1 ==> t[i := entry(i)][k] == entry(k)
  {
    forall k: Byte | k < i + 1
      ensures t[i := entry(i)][k] == entry(k)
    {
      BelowNext(k, i);
    }
  }

  lemma BelowNext(k: bv32, i: bv32)
    requires i < 256 && k < i + 1
    ensures k < i || k == i
  {
  }

  /**
   * `calculateCRC32`: builds the table, runs the register over the bytes and returns
   * the final XOR; `>>> 0` only reinterprets the 32 bits as an unsigned number,
   * which is how a `bv32` is read.
   */
  method CalculateCrc32(data: seq<Byte>) returns (r: bv32)
    ensures r == Crc32(data)
  {
    var table := BuildCrcTable();
    var crc: bv32 := 0xFFFF_FFFF;
    for i := 0 to |data|
      invariant crc == RegisterAt(data, i)
      invariant forall k: Byte :: table[k] == TableEntry(k)
    {
      var index: Byte := (crc ^ data[i]) & 0xFF;
      var entry := table[index];
      TableDrivenStep(crc, data[i], entry);
      crc := entry ^ (crc >> 8);
    }
    r := crc ^ 0xFFFF_FFFF;
  }

  lemma TableDrivenStep(crc: bv32, b: Byte, entry: bv32)
    requires entry == TableEntry((crc ^ b) & 0xFF)
    ensures ByteStep(crc, b) == entry ^ (crc >> 8)
  {
  }

  // ---------------------------------------------------------------------------
  // The 32-byte identifier
  // ---------------------------------------------------------------------------

  /** `DataView.setUint32(0, x, false)`: four bytes, most significant first. */
  function BigEndian32(x: bv32): (bytes: seq<Byte>)
    ensures |bytes| == 4
  {
    [(x >> 24) & 0xFF, (x >> 16) & 0xFF, (x >> 8) & 0xFF, x & 0xFF]
  }

  /** Reads four bytes as a big-endian unsigned 32-bit number. */
  function FromBigEndian32(bytes: seq<Byte>): bv32
    requires |bytes| == 4
  {
    (bytes[0] as bv32 << 24) | (bytes[1] as bv32 << 16) | (bytes[2] as bv32 << 8) | bytes[3] as bv32
  }

  lemma BigEndianRoundTrip(x: bv32)
    ensures FromBigEndian32(BigEndian32(x)) == x
  {
  }

  lemma BigEndianBytesRoundTrip(bytes: seq<Byte>)
    requires |bytes| == 4
    ensures BigEndian32(FromBigEndian32(bytes)) == bytes
  {
  }

  /** An identifier whose first four bytes are the big-endian CRC-32 of the other 28. */
  predicate ChecksumValid(id: seq<Byte>) {
    |id| == 32 && FromBigEndian32(id[..4]) == Crc32(id[4..])
  }

  /** The identifier for a digest: the checksum bytes followed by the digest itself. */
  function IdentifierBytes(digest: Digest): (id: seq<Byte>)
    ensures |id| == 32
    ensures id[4..] == digest
    ensures ChecksumValid(id)
  {
    BigEndianRoundTrip(Crc32(digest));
    BigEndian32(Crc32(digest)) + digest
  }

  /** The identifier of a principal, given the SHA-224 function. */
  function AccountIdentifierOf(principal: seq<Byte>, sha224: seq<Byte> -> Digest): seq<Byte> {
    IdentifierBytes(sha224(Payload(principal)))
  }

  // ---------------------------------------------------------------------------
  // Hexadecimal text
  // ---------------------------------------------------------------------------

  const HexDigits: string := "0123456789abcdef"

  predicate IsLowerHexDigit(c: char) {
    '0' <= c <= '9' || 'a' <= c <= 'f'
  }

  /** The digit for a value below 16. */
  function HexDigit(n: Byte): (c: char)
    requires n < 16
    ensures IsLowerHexDigit(c)
  {
    HexDigits[n]
  }

  /** `b.toString(16)`: one digit below 16, otherwise two without a leading zero. */
  function Radix16(b: Byte): (s: string)
    ensures 1 <= |s| <= 2
  {
    if b < 16 then [HexDigit(b)] else [HexDigit(b >> 4), HexDigit(b & 0xF)]
  }

  /** `String.prototype.padStart(len, c)`. */
  function PadStart(s: string, len: nat, c: char): (r: string)
    ensures |r| == if |s| >= len then |s| else len
    ensures r[|r| - |s|..] == s
    ensures forall i :: 0 <= i < |r| - |s| ==> r[i] == c
  {
    if |s| >= len then s else seq(len - |s|, _ => c) + s
  }

  /** `b.toString(16).padStart(2, '0')`. */
  function ByteToHex(b: Byte): (s: string)
    ensures |s| == 2
  {
    PadStart(Radix16(b), 2, '0')
  }

  /** Each byte becomes exactly two digits: the high nibble, then the low nibble. */
  lemma ByteToHexDigits(b: Byte)
    ensures b >> 4 < 16 && b & 0xF < 16
    ensures ByteToHex(b) == [HexDigit(b >> 4), HexDigit(b & 0xF)]
  {
    if b < 16 {
      assert b >> 4 == 0 && b & 0xF == b;
      assert ByteToHex(b) == ['0'] + [HexDigit(b)];
    }
  }

  /** `Array.from(bytes).map(b => ...).join('')`. */
  function ToHex(bytes: seq<Byte>): (s: string)
    ensures |s| == 2 * |bytes|
  {
    if bytes == [] then "" else ByteToHex(bytes[0]) + ToHex(bytes[1..])
  }

  /** Every character of the text is a lower-case hexadecimal digit. */
  lemma {:induction false} ToHexDigits(bytes: seq<Byte>)
    ensures forall i :: 0 <= i < |ToHex(bytes)| ==> IsLowerHexDigit(ToHex(bytes)[i])
  {
    if bytes != [] {
      ToHexDigits(bytes[1..]);
      ByteToHexIsHex(bytes[0]);
      HexDigitsOfCons(ByteToHex(bytes[0]), ToHex(bytes[1..]));
    }
  }

  lemma ByteToHexIsHex(b: Byte)
    ensures forall i :: 0 <= i < |ByteToHex(b)| ==> IsLowerHexDigit(ByteToHex(b)[i])
  {
    ByteToHexDigits(b);
    var hex := ByteToHex(b);
    assert IsLowerHexDigit(hex[0]) && IsLowerHexDigit(hex[1]);
  }

  lemma HexDigitsOfCons(head: string, tail: string)
    requires forall i :: 0 <= i < |head| ==> IsLowerHexDigit(head[i])
    requires forall i :: 0 <= i < |tail| ==> IsLowerHexDigit(tail[i])
    ensures forall i :: 0 <= i < |head + tail| ==> IsLowerHexDigit((head + tail)[i])
  {
  }

  lemma {:induction false} ToHexAppend(bytes: seq<Byte>, b: Byte)
    ensures ToHex(bytes + [b]) == ToHex(bytes) + ByteToHex(b)
  {
    if bytes != [] {
      assert (bytes + [b])[1..] == bytes[1..] + [b];
      ToHexAppend(bytes[1..], b);
    } else {
      assert ([] + [b])[1..] == [];
    }
  }

  /** The value of a lower-case hexadecimal digit. */
  function DigitValue(c: char): (v: Option<Byte>)
    ensures v.Some? <==> IsLowerHexDigit(c)
    ensures v.Some? ==> v.value < 16 && HexDigit(v.value) == c
  {
    match c
    case '0' => Some(0) case '1' => Some(1) case '2' => Some(2) case '3' => Some(3)
    case '4' => Some(4) case '5' => Some(5) case '6' => Some(6) case '7' => Some(7)
    case '8' => Some(8) case '9' => Some(9) case 'a' => Some(10) case 'b' => Some(11)
    case 'c' => Some(12) case 'd' => Some(13) case 'e' => Some(14) case 'f' => Some(15)
    case _ => None
  }

  lemma DigitValueOfHexDigit(n: Byte)
    requires n < 16
    ensures DigitValue(HexDigit(n)) == Some(n)
  {
  }

  /** The byte with high nibble `hi` and low nibble `lo`. */
  function JoinNibbles(hi: Byte, lo: Byte): (b: Byte)
    requires hi < 16 && lo < 16
    ensures b >> 4 == hi && b & 0xF == lo
  {
    (hi << 4) | lo
  }

  lemma SplitNibbles(b: Byte)
    ensures b >> 4 < 16 && b & 0xF < 16 && JoinNibbles(b >> 4, b & 0xF) == b
  {
  }

  /** Decodes lower-case hexadecimal text, two digits per byte. */
  function FromHex(s: string): Option<seq<Byte>> {
    if s == [] then Some([])
    else if |s| == 1 then None
    else
      match (DigitValue(s[0]), DigitValue(s[1]), FromHex(s[2..]))
      case (Some(hi), Some(lo), Some(rest)) => Some([JoinNibbles(hi, lo)] + rest)
      case _ => None
  }

  /** Two decodable digits in front of decodable text decode to one more byte. */
  lemma FromHexCons(s: string, hi: Byte, lo: Byte, rest: seq<Byte>)
    requires |s| >= 2 && DigitValue(s[0]) == Some(hi) && DigitValue(s[1]) == Some(lo)
    requires FromHex(s[2..]) == Some(rest)
    ensures hi < 16 && lo < 16
    ensures FromHex(s) == Some([JoinNibbles(hi, lo)] + rest)
  {
  }

  /** The two digits of a byte decode to that byte, whatever follows them. */
  lemma DecodeByteDigits(b: Byte, rest: string)
    requires FromHex(rest).Some?
    ensures FromHex(ByteToHex(b) + rest) == Some([b] + FromHex(rest).value)
  {
    var s := ByteToHex(b) + rest;
    ByteToHexDigits(b);
    assert s[0] == HexDigit(b >> 4) && s[1] == HexDigit(b & 0xF) && s[2..] == rest;
    DigitValueOfHexDigit(b >> 4);
    DigitValueOfHexDigit(b & 0xF);
    FromHexCons(s, b >> 4, b & 0xF, FromHex(rest).value);
    SplitNibbles(b);
  }

  /** Decoding the hexadecimal text gives back the bytes. */
  lemma {:induction false} FromHexToHex(bytes: seq<Byte>)
    ensures FromHex(ToHex(bytes)) == Some(bytes)
  {
    if bytes != [] {
      FromHexToHex(bytes[1..]);
      DecodeByteDigits(bytes[0], ToHex(bytes[1..]));
      assert [bytes[0]] + bytes[1..] == bytes;
    }
  }

  lemma ToHexCons(b: Byte, rest: seq<Byte>)
    ensures ToHex([b] + rest) == ByteToHex(b) + ToHex(rest)
  {
    assert ([b] + rest)[1..] == rest;
  }

  /** A byte joined from two nibbles is written as the digits of those nibbles. */
  lemma EncodeJoinedNibbles(hi: Byte, lo: Byte)
    requires hi < 16 && lo < 16
    ensures ByteToHex(JoinNibbles(hi, lo)) == [HexDigit(hi), HexDigit(lo)]
  {
    ByteToHexDigits(JoinNibbles(hi, lo));
  }

  /** Conversely, text that decodes is exactly the encoding of what it decodes to. */
  lemma {:induction false} ToHexFromHex(s: string)
    requires FromHex(s).Some?
    ensures ToHex(FromHex(s).value) == s
  {
    if s != [] {
      var hi := DigitValue(s[0]).value;
      var lo := DigitValue(s[1]).value;
      var rest := FromHex(s[2..]).value;
      assert FromHex(s).value == [JoinNibbles(hi, lo)] + rest;
      ToHexFromHex(s[2..]);
      ToHexCons(JoinNibbles(hi, lo), rest);
      EncodeJoinedNibbles(hi, lo);
      FirstTwo(s);
    }
  }

  lemma FirstTwo(s: string)
    requires |s| >= 2
    ensures s == [s[0], s[1]] + s[2..]
  {
  }

  // ---------------------------------------------------------------------------
  // principalToAccountIdentifier
  // ---------------------------------------------------------------------------

  /**
   * The 32-byte buffer: `new DataView(buffer).setUint32(0, crc, false)` followed by
   * `accountId.set(hash, 4)`.
   */
  method FillIdentifierBuffer(crc: bv32, hash: Digest) returns (accountId: array<Byte>)
    ensures fresh(accountId)
    ensures accountId[..] == BigEndian32(crc) + hash
  {
    accountId := new Byte[32];
    accountId[0] := (crc >> 24) & 0xFF;
    accountId[1] := (crc >> 16) & 0xFF;
    accountId[2] := (crc >> 8) & 0xFF;
    accountId[3] := crc & 0xFF;
    for k := 0 to 28
      invariant accountId[..4] == BigEndian32(crc)
      invariant accountId[4..4 + k] == hash[..k]
    {
      accountId[4 + k] := hash[k];
    }
    assert accountId[..] == accountId[..4] + accountId[4..4 + 28];
    assert hash[..28] == hash;
  }

  /** `Array.from(bytes).map(b => b.toString(16).padStart(2, '0')).join('')`. */
  method HexString(bytes: seq<Byte>) returns (hex: string)
    ensures hex == ToHex(bytes)
  {
    hex := "";
    for i := 0 to |bytes|
      invariant hex == ToHex(bytes[..i])
    {
      HexStep(bytes, i);
      hex := hex + ByteToHex(bytes[i]);
    }
    assert bytes[..|bytes|] == bytes;
  }

  lemma HexStep(bytes: seq<Byte>, i: nat)
    requires i < |bytes|
    ensures ToHex(bytes[..i + 1]) == ToHex(bytes[..i]) + ByteToHex(bytes[i])
  {
    ToHexAppend(bytes[..i], bytes[i]);
    assert bytes[..i + 1] == bytes[..i] + [bytes[i]];
  }

  /**
   * `principalToAccountIdentifier`: builds the payload, hashes it, writes the
   * big-endian checksum and the digest into a 32-byte buffer and returns its
   * hexadecimal text.
   */
  method PrincipalToAccountIdentifier(principal: seq<Byte>, sha224: seq<Byte> -> Digest) returns (hex: string)
    ensures hex == ToHex(AccountIdentifierOf(principal, sha224))
    ensures |hex| == 64 && forall i :: 0 <= i < 64 ==> IsLowerHexDigit(hex[i])
    ensures FromHex(hex) == Some(AccountIdentifierOf(principal, sha224))
    ensures ChecksumValid(FromHex(hex).value)
  {
    var payload := DomainSeparator + principal + ZeroSubaccount();
    var hash := sha224(payload);
    var crc := CalculateCrc32(hash);
    var accountId := FillIdentifierBuffer(crc, hash);
    hex := HexString(accountId[..]);
    IdentifierFromParts(principal, sha224, payload, hash, crc, accountId[..]);
    HexOfIdentifier(accountId[..], hex);
  }

  lemma HexOfIdentifier(id: seq<Byte>, hex: string)
    requires |id| == 32 && hex == ToHex(id)
    ensures |hex| == 64 && forall i :: 0 <= i < 64 ==> IsLowerHexDigit(hex[i])
    ensures FromHex(hex) == Some(id)
  {
    ToHexDigits(id);
    FromHexToHex(id);
  }

  lemma IdentifierFromParts(principal: seq<Byte>, sha224: seq<Byte> -> Digest, payload: seq<Byte>, hash: Digest, crc: bv32, id: seq<Byte>)
    requires payload == DomainSeparator + principal + ZeroSubaccount()
    requires hash == sha224(payload) && crc == Crc32(hash) && id == BigEndian32(crc) + hash
    ensures id == AccountIdentifierOf(principal, sha224)
    ensures |id| == 32 && ChecksumValid(id)
  {
  }
}
