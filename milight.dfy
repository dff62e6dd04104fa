/**
 * The Milight command codec: the 11-integer plaintext that `get_query` lays
 * out, the obfuscation and checksum of `_create_command`, its rendering as
 * 24 lowercase hex characters, and the fixed opcode presets.
 */
module MilightCodec {

  import opened Wire

  const PlaintextLength: nat := 11
  const CommandLength: nat := 24

  /** Added to each byte after the xor with the key (index 11 is never used). */
  const Offsets: seq<byte> := [0, 16, 24, 1, 129, 55, 169, 87, 35, 70, 23, 0]

  const ChecksumBias: byte := 131

  /** A plaintext as `_create_command` receives it: 11 integers, the first a byte. */
  predicate IsPlaintext(p: seq<int>)
  {
    |p| == PlaintextLength && 0 <= p[0] < 256
  }

  // ------------------------------------------------------------ layout

  /**
   * `get_query(value1, value2, value3, id1, id2, value4, value5, value6)`:
   * the order in which the parameters enter the plaintext.
   */
  function Query(v1: int, v2: int, v3: int, id1: int, id2: int, v4: int, v5: int, v6: int): (p: seq<int>)
    ensures |p| == PlaintextLength
    ensures p[0] == v1 && p[1] == v2 && p[2] == id1 && p[3] == id2
    ensures p[4] == v5 && p[5] == v3 && p[6] == v4 && p[7] == v6
    ensures p[8] == 0 && p[9] == 0 && p[10] == 0
  {
    [v1, v2, id1, id2, v5, v3, v4, v6, 0, 0, 0]
  }

  /** `get_query` with its defaults value4 = 0, value5 = 2, value6 = 0. */
  function ShortQuery(v1: int, v2: int, v3: int, id1: int, id2: int): seq<int>
  {
    Query(v1, v2, v3, id1, id2, 0, 2, 0)
  }

  function TurnOnQuery(id1: int, id2: int): seq<int>
  {
    ShortQuery(32, 161, 1, id1, id2)
  }

  function TurnOffQuery(id1: int, id2: int): seq<int>
  {
    ShortQuery(32, 161, 2, id1, id2)
  }

  function SetColourQuery(id1: int, id2: int, colour: int): seq<int>
  {
    Query(45, 161, 4, id1, id2, colour, 2, 50)
  }

  function DimOnQuery(id1: int, id2: int): seq<int>
  {
    Query(20, 161, 5, id1, id2, 200, 4, 50)
  }

  /** The four presets, position by position, and all of them are plaintexts. */
  lemma PresetLayouts(id1: int, id2: int, colour: int)
    ensures TurnOnQuery(id1, id2) == [32, 161, id1, id2, 2, 1, 0, 0, 0, 0, 0]
    ensures TurnOffQuery(id1, id2) == [32, 161, id1, id2, 2, 2, 0, 0, 0, 0, 0]
    ensures SetColourQuery(id1, id2, colour) == [45, 161, id1, id2, 2, 4, colour, 50, 0, 0, 0]
    ensures DimOnQuery(id1, id2) == [20, 161, id1, id2, 4, 5, 200, 50, 0, 0, 0]
    ensures IsPlaintext(TurnOnQuery(id1, id2)) && IsPlaintext(TurnOffQuery(id1, id2))
    ensures IsPlaintext(SetColourQuery(id1, id2, colour)) && IsPlaintext(DimOnQuery(id1, id2))
  {
  }

  // ---------------------------------------------------------- encoding

  /** `j`: the sum of the low bytes of the plaintext entries. */
  function ByteSum(p: seq<int>): (j: nat)
    ensures j <= 255 * |p|
  {
    if p == [] then 0 else ByteSum(p[..|p| - 1]) + Mask(p[|p| - 1])
  }

  /** `((k ^ j) & 0xff) + 131) & 0xff`; only the low byte of `j` reaches the xor. */
  function Checksum(p: seq<int>): byte
    requires IsPlaintext(p)
  {
    AddByte(Xor(p[0], Mask(ByteSum(p))), ChecksumBias)
  }

  /** Entry i (1 <= i <= 10) after the xor with the key and the offset. */
  function Obfuscated(p: seq<int>, i: nat): byte
    requires IsPlaintext(p) && i < PlaintextLength
  {
    AddByte(Xor(Mask(p[i]), p[0]), Offsets[i])
  }

  /** The twelve bytes: the key, ten obfuscated entries, the checksum. */
  function CommandBytes(p: seq<int>): (bs: seq<byte>)
    requires IsPlaintext(p)
    ensures |bs| == 12
  {
    var key: byte := p[0];
    seq(12, n requires 0 <= n < 12 =>
      if n == 0 then key else if n == 11 then Checksum(p) else Obfuscated(p, n))
  }

  /** The text `_create_command` returns. */
  function Command(p: seq<int>): (cmd: string)
    requires IsPlaintext(p)
  {
    HexString(CommandBytes(p))
  }

  /**
   * `_create_command`, with the `eval` of the list literal replaced by the
   * integer list itself: an accumulator loop for the checksum and the
   * comprehensions for the obfuscated bytes.
   */
  method CreateCommand(input: seq<int>) returns (cmd: string)
    requires IsPlaintext(input)
    ensures cmd == Command(input)
  {
    var k := input[0];
    var j := 0;
    var i := 0;
    while i <= 10
      invariant 0 <= i <= PlaintextLength
      invariant j == ByteSum(input[..i])
    {
      assert input[..i + 1][..i] == input[..i];
      j := j + Mask(input[i]) as int;
      i := i + 1;
    }
    assert input[..i] == input;
    var checksum := AddByte(Xor(k, Mask(j)), ChecksumBias);
    var xored := seq(|input|, n requires 0 <= n < |input| => Xor(Mask(input[n]), k));
    var adds := seq(|xored|, n requires 0 <= n < |xored| => AddByte(xored[n], Offsets[n]));
    adds := adds[0 := k];
    adds := adds + [checksum];
    assert |adds| == 12 && adds[0] == input[0] && adds[11] == Checksum(input);
    assert forall n :: 1 <= n <= 10 ==> adds[n] == Obfuscated(input, n);
    assert adds == CommandBytes(input);
    cmd := HexString(adds);
  }

  // --------------------------------------------------------- decoding

  /**
   * The receiving side of the obfuscation: parse the hex, take byte 0 as the
   * key, undo offset and xor for bytes 1..10, and accept only when byte 11 is
   * the checksum of what was recovered.
   */
  function Decode(cmd: string): (r: Option<seq<byte>>)
    ensures r.Some? ==> |r.value| == PlaintextLength
  {
    if |cmd| != CommandLength || !ValidHex(cmd) || |FromHex(cmd)| != 12 then None
    else
      var bs := FromHex(cmd);
      var plain := Unobfuscate(bs);
      if bs[11] == Checksum(plain) then Some(plain) else None
  }

  /** Byte 0 is the key; bytes 1..10 lose their offset and then the key. */
  function Unobfuscate(bs: seq<byte>): (plain: seq<byte>)
    requires |bs| == 12
    ensures |plain| == PlaintextLength && plain[0] == bs[0]
  {
    seq(PlaintextLength, n requires 0 <= n < PlaintextLength =>
      if n == 0 then bs[0] else Xor(SubByte(bs[n], Offsets[n]), bs[0]))
  }

  /** The low bytes of a plaintext, the most a receiver could hope to recover. */
  function LowBytes(p: seq<int>): (m: seq<byte>)
    ensures |m| == |p|
  {
    seq(|p|, n requires 0 <= n < |p| => Mask(p[n]))
  }

  /** The checksum sum sees only low bytes. */
  lemma {:induction false} SameLowBytesSameSum(p: seq<int>, q: seq<int>)
    requires |p| == |q|
    requires forall i :: 0 <= i < |p| ==> Mask(p[i]) == Mask(q[i])
    ensures ByteSum(p) == ByteSum(q)
  {
    if p != [] {
      SameLowBytesSameSum(p[..|p| - 1], q[..|q| - 1]);
    }
  }

  /**
   * Every byte of the command is recoverable: decoding what `_create_command`
   * produced gives back the low byte of each plaintext entry, and the checksum
   * is accepted.
   */
  lemma DecodeCommand(p: seq<int>)
    requires IsPlaintext(p)
    ensures Decode(Command(p)) == Some(LowBytes(p))
  {
    var bs := CommandBytes(p);
    FromHexString(bs);
    CommandShape(p);
    assert FromHex(Command(p)) == bs;
    UnobfuscateCommandBytes(p);
    var plain := Unobfuscate(bs);
    assert forall i :: 0 <= i < PlaintextLength ==> Mask(plain[i]) == Mask(p[i]);
    SameLowBytesSameSum(plain, p);
    assert Checksum(plain) == Checksum(p);
  }

  lemma UnobfuscateCommandBytes(p: seq<int>)
    requires IsPlaintext(p)
    ensures Unobfuscate(CommandBytes(p)) == LowBytes(p)
  {
    var bs := CommandBytes(p);
    var plain := Unobfuscate(bs);
    forall n | 1 <= n < PlaintextLength ensures plain[n] == Mask(p[n]) {
      assert bs[n] == AddByte(Xor(Mask(p[n]), p[0]), Offsets[n]);
      XorCancel(Mask(p[n]), p[0]);
    }
  }

  /** The shape of a command: 24 lowercase hex characters, key first. */
  lemma CommandShape(p: seq<int>)
    requires IsPlaintext(p)
    ensures |Command(p)| == CommandLength
    ensures forall k :: 0 <= k < CommandLength ==> IsLowerHexDigit(Command(p)[k])
    ensures Command(p)[..2] == HexPair(p[0])
    ensures forall i :: 1 <= i <= 10 ==> Command(p)[2 * i .. 2 * i + 2] == HexPair(Obfuscated(p, i))
    ensures Command(p)[22..] == HexPair(Checksum(p))
    ensures ValidHex(Command(p))
  {
    var bs := CommandBytes(p);
    HexStringIsLowerHex(bs);
    FromHexString(bs);
    HexStringAt(bs, 0);
    HexStringAt(bs, 11);
    forall i | 1 <= i <= 10
      ensures Command(p)[2 * i .. 2 * i + 2] == HexPair(Obfuscated(p, i))
    {
      HexStringAt(bs, i);
    }
  }

  /** Two plaintexts give the same command exactly when their low bytes agree. */
  lemma CommandInjective(p: seq<int>, q: seq<int>)
    requires IsPlaintext(p) && IsPlaintext(q)
    ensures Command(p) == Command(q) <==> LowBytes(p) == LowBytes(q)
  {
    DecodeCommand(p);
    DecodeCommand(q);
    if LowBytes(p) == LowBytes(q) {
      SameLowBytesSameCommand(p, q);
    }
  }

  lemma SameLowBytesSameCommand(p: seq<int>, q: seq<int>)
    requires IsPlaintext(p) && IsPlaintext(q) && LowBytes(p) == LowBytes(q)
    ensures CommandBytes(p) == CommandBytes(q)
  {
    forall i | 0 <= i < PlaintextLength ensures Mask(p[i]) == Mask(q[i]) {
      assert LowBytes(p)[i] == LowBytes(q)[i];
    }
    SameLowBytesSameSum(p, q);
    assert p[0] == Mask(p[0]) && q[0] == Mask(q[0]);
  }
}
