/**
 * Text encodings shared by the light server: two-digit lowercase hex bytes
 * (the rendering of device commands), `bytearray.fromhex` validity, decimal
 * integers as Python's `int()` reads them, and the 4-digit length header that
 * frames every control-plane message.
 */
module Wire {

  datatype Option<T> = None | Some(value: T)

  type byte = x: int | 0 <= x < 256

  const HexAlphabet: string := "0123456789abcdef"

  /** Python's `x & 0xff` on an unbounded two's-complement integer. */
  function Mask(x: int): (r: byte)
    ensures 0 <= x < 256 ==> r == x
  {
    x % 256
  }

  /** `(x + y) & 0xff` for bytes. */
  function AddByte(x: byte, y: byte): byte
  {
    (x + y) % 256
  }

  /** `(x - y) & 0xff`, which undoes AddByte. */
  function SubByte(x: byte, y: byte): (r: byte)
    ensures forall z: byte :: x == AddByte(z, y) ==> r == z
  {
    (x - y) % 256
  }

  function Pow2(n: nat): (p: nat)
    ensures p >= 1
  {
    if n == 0 then 1 else 2 * Pow2(n - 1)
  }

  /** Bitwise exclusive or of the low `width` bits. */
  function XorBits(a: nat, b: nat, width: nat): (r: nat)
    ensures r < Pow2(width)
  {
    if width == 0 then 0 else (if a % 2 != b % 2 then 1 else 0) + 2 * XorBits(a / 2, b / 2, width - 1)
  }

  /** Python's `a ^ b` on two bytes. */
  function Xor(a: byte, b: byte): byte
  {
    assert Pow2(8) == 256;
    XorBits(a, b, 8)
  }

  lemma {:induction false} XorBitsCancel(a: nat, k: nat, width: nat)
    requires a < Pow2(width)
    ensures XorBits(XorBits(a, k, width), k, width) == a
  {
    if width > 0 {
      var low := if a % 2 != k % 2 then 1 else 0;
      var rest := XorBits(a / 2, k / 2, width - 1);
      var x := low + 2 * rest;
      assert XorBits(a, k, width) == x;
      assert x % 2 == low && x / 2 == rest;
      assert a / 2 < Pow2(width - 1);
      XorBitsCancel(a / 2, k / 2, width - 1);
      assert (if low != k % 2 then 1 else 0) == a % 2;
    }
  }

  /** Xor with the same key undoes itself, so an obfuscated byte can be restored. */
  lemma XorCancel(a: byte, k: byte)
    ensures Xor(Xor(a, k), k) == a
  {
    assert Pow2(8) == 256;
    XorBitsCancel(a, k, 8);
  }

  // ---------------------------------------------------------------- hex

  predicate IsHexDigit(c: char)
  {
    '0' <= c <= '9' || 'a' <= c <= 'f' || 'A' <= c <= 'F'
  }

  predicate IsLowerHexDigit(c: char)
  {
    '0' <= c <= '9' || 'a' <= c <= 'f'
  }

  function DigitValue(c: char): (v: nat)
    requires IsHexDigit(c)
    ensures v < 16
  {
    if '0' <= c <= '9' then c as int - '0' as int
    else if 'a' <= c <= 'f' then c as int - 'a' as int + 10
    else c as int - 'A' as int + 10
  }

  /** `hex(b)[2:].zfill(2)` for a byte: two lowercase digits, zero padded. */
  function HexPair(b: byte): (s: string)
    ensures |s| == 2 && IsLowerHexDigit(s[0]) && IsLowerHexDigit(s[1])
    ensures DigitValue(s[0]) * 16 + DigitValue(s[1]) == b
  {
    var hi, lo := b / 16, b % 16;
    AlphabetDigit(hi);
    AlphabetDigit(lo);
    [HexAlphabet[hi], HexAlphabet[lo]]
  }

  lemma AlphabetDigit(d: nat)
    requires d < 16
    ensures IsLowerHexDigit(HexAlphabet[d]) && DigitValue(HexAlphabet[d]) == d
  {
  }

  /** The concatenated rendering of a byte sequence (`''.join(hexs)`). */
  function HexString(bs: seq<byte>): (s: string)
    ensures |s| == 2 * |bs|
  {
    if bs == [] then [] else HexPair(bs[0]) + HexString(bs[1..])
  }

  lemma {:induction false} HexStringAt(bs: seq<byte>, i: nat)
    requires i < |bs|
    ensures HexString(bs)[2 * i .. 2 * i + 2] == HexPair(bs[i])
  {
    if i > 0 {
      HexStringAt(bs[1..], i - 1);
      assert HexString(bs) == HexPair(bs[0]) + HexString(bs[1..]);
    }
  }

  lemma {:induction false} HexStringIsLowerHex(bs: seq<byte>)
    ensures forall k :: 0 <= k < |HexString(bs)| ==> IsLowerHexDigit(HexString(bs)[k])
  {
    if bs != [] {
      HexStringIsLowerHex(bs[1..]);
      assert HexString(bs) == HexPair(bs[0]) + HexString(bs[1..]);
    }
  }

  /** The ASCII whitespace `bytearray.fromhex` skips: space, tab, newline, return, vertical tab, form feed. */
  predicate IsSpace(c: char)
  {
    c == ' ' || c == '\t' || c == '\n' || c == '\r' || c as int == 11 || c as int == 12
  }

  /**
   * What `bytearray.fromhex` accepts: pairs of hex digits, with whitespace
   * allowed before each pair and at the end, but not inside a pair.
   */
  predicate ValidHex(s: string)
  {
    if s == [] then true
    else if IsSpace(s[0]) then ValidHex(s[1..])
    else |s| >= 2 && IsHexDigit(s[0]) && IsHexDigit(s[1]) && ValidHex(s[2..])
  }

  /** The bytes `bytearray.fromhex` produces: one per pair, whitespace skipped. */
  function FromHex(s: string): (bs: seq<byte>)
    requires ValidHex(s)
    ensures |bs| * 2 <= |s|
  {
    if s == [] then []
    else if IsSpace(s[0]) then FromHex(s[1..])
    else [DigitValue(s[0]) * 16 + DigitValue(s[1])] + FromHex(s[2..])
  }

  /** Whitespace between and around the pairs is skipped, but not inside a pair. */
  lemma FromHexSpaces()
    ensures ValidHex(" ") && FromHex(" ") == []
    ensures ValidHex("ff ff ff") && FromHex("ff ff ff") == [255, 255, 255]
    ensures ValidHex("\tab\n") && FromHex("\tab\n") == [171]
    ensures !ValidHex("f f") && !ValidHex("abc")
  {
    assert "ff ff ff"[2..] == " ff ff";
    assert " ff ff"[1..] == "ff ff";
    assert "ff ff"[2..] == " ff";
    assert " ff"[1..] == "ff";
    assert "ff"[2..] == [];
    assert "\tab\n"[1..] == "ab\n";
    assert "ab\n"[2..] == "\n";
    assert "\n"[1..] == [];
    assert "abc"[2..] == "c";
  }

  lemma {:induction false} FromHexString(bs: seq<byte>)
    ensures ValidHex(HexString(bs)) && FromHex(HexString(bs)) == bs
  {
    HexStringIsLowerHex(bs);
    if bs != [] {
      FromHexString(bs[1..]);
      FromHexCons(HexPair(bs[0]), HexString(bs[1..]));
    }
  }

  /** `fromhex` reads the first two digits and then the rest. */
  lemma FromHexCons(p: string, rest: string)
    requires |p| == 2 && IsHexDigit(p[0]) && IsHexDigit(p[1]) && ValidHex(rest)
    ensures ValidHex(p + rest)
    ensures FromHex(p + rest) == [DigitValue(p[0]) * 16 + DigitValue(p[1])] + FromHex(rest)
  {
    var s := p + rest;
    assert s[2..] == rest;
  }

  // ------------------------------------------------------------ decimal

  predicate IsDigit(c: char)
  {
    '0' <= c <= '9'
  }

  predicate AllDigits(s: string)
  {
    forall k :: 0 <= k < |s| ==> IsDigit(s[k])
  }

  /** The value of a string of decimal digits (most significant first). */
  function DigitsValue(s: string): (n: nat)
    requires AllDigits(s)
  {
    if s == [] then 0
    else DigitsValue(s[..|s| - 1]) * 10 + (s[|s| - 1] as int - '0' as int)
  }

  /**
   * Python's `int(s)` on a string of an optional sign followed by at least
   * one decimal digit; anything else raises ValueError, modelled as None.
   */
  function ParseInt(s: string): (r: Option<int>)
    ensures r.Some? ==> |s| > 0
  {
    if |s| > 0 && (s[0] == '-' || s[0] == '+') then
      if |s| > 1 && AllDigits(s[1..]) then
        var v: int := DigitsValue(s[1..]);
        Some(if s[0] == '-' then -v else v)
      else None
    else if |s| > 0 && AllDigits(s) then Some(DigitsValue(s))
    else None
  }

  /**
   * The integer a colour token denotes when it is spliced into the text of a
   * Python list literal and evaluated: an optional minus sign and a decimal
   * literal (Python 3 refuses leading zeros unless every digit is zero).
   */
  function DecimalLiteral(s: string): (r: Option<int>)
    ensures r.Some? ==> |s| > 0
  {
    var neg := |s| > 0 && s[0] == '-';
    var body := if neg then s[1..] else s;
    if |body| > 0 && AllDigits(body) && (body[0] != '0' || DigitsValue(body) == 0) then
      var v: int := DigitsValue(body);
      Some(if neg then -v else v)
    else None
  }

  /** `str(n)`: a minus sign for a negative number, then its digits without leading zeros. */
  function DecimalText(n: int): (s: string)
  {
    if n < 0 then "-" + NatText(-n) else NatText(n)
  }

  function NatText(n: nat): (s: string)
  {
    if n < 10 then [Digit(n)] else NatText(n / 10) + [Digit(n % 10)]
  }

  lemma {:induction false} NatTextValue(n: nat)
    ensures |NatText(n)| > 0 && AllDigits(NatText(n)) && DigitsValue(NatText(n)) == n
    ensures NatText(n)[0] != '0' || n == 0
  {
    if n >= 10 {
      NatTextValue(n / 10);
      var t := NatText(n);
      assert t[..|t| - 1] == NatText(n / 10);
      assert t[0] == NatText(n / 10)[0];
    }
  }

  /** Every integer, written out by `str`, evaluates back to itself as a list element. */
  lemma DecimalRoundTrip(n: int)
    ensures DecimalLiteral(DecimalText(n)) == Some(n)
  {
    if n < 0 {
      NatTextValue(-n);
      assert DecimalText(n)[1..] == NatText(-n);
    } else {
      NatTextValue(n);
    }
  }

  lemma DecimalLiteralExamples()
    ensures DecimalLiteral("5") == Some(5)
    ensures DecimalLiteral("-12") == Some(-12)
    ensures DecimalLiteral("07") == None
    ensures DecimalLiteral("ff") == None
    ensures DecimalLiteral("") == None
  {
    assert DigitsValue("5") == 5;
    assert "12"[..1] == "1";
    assert DigitsValue("12") == 12;
    assert !IsDigit('f');
  }

  // ------------------------------------------------------------- frames

  const HeaderWidth: nat := 4

  /** `'%04d' % n`: four zero-padded decimal digits. */
  function Header(n: nat): (h: string)
    requires n < 10000
    ensures |h| == HeaderWidth && AllDigits(h)
  {
    [Digit(n / 1000), Digit(n / 100 % 10), Digit(n / 10 % 10), Digit(n % 10)]
  }

  function Digit(d: nat): (c: char)
    requires d < 10
    ensures IsDigit(c) && c as int - '0' as int == d
  {
    (d + '0' as int) as char
  }

  lemma HeaderValue(n: nat)
    requires n < 10000
    ensures DigitsValue(Header(n)) == n
  {
    var h := Header(n);
    DigitsValueFour(h);
    PlaceValues(n);
  }

  lemma DigitsValueFour(h: string)
    requires |h| == 4 && AllDigits(h)
    ensures DigitsValue(h) == ((Val(h[0]) * 10 + Val(h[1])) * 10 + Val(h[2])) * 10 + Val(h[3])
  {
    assert h[..3] == h[..|h| - 1];
    assert h[..2] == h[..3][..2];
    assert h[..1] == h[..2][..1];
    assert h[..1][..0] == [];
    assert DigitsValue(h[..1]) == Val(h[0]);
    assert DigitsValue(h[..2]) == Val(h[0]) * 10 + Val(h[1]);
    assert DigitsValue(h[..3]) == (Val(h[0]) * 10 + Val(h[1])) * 10 + Val(h[2]);
  }

  /** The digit a character of a decimal string stands for. */
  function Val(c: char): int
  {
    c as int - '0' as int
  }

  lemma PlaceValues(n: nat)
    requires n < 10000
    ensures n == ((n / 1000 * 10 + n / 100 % 10) * 10 + n / 10 % 10) * 10 + n % 10
  {
    var q1 := n / 10;
    var q2 := q1 / 10;
    assert n == q1 * 10 + n % 10;
    assert q1 == q2 * 10 + q1 % 10;
    assert n / 100 == q2 && n / 1000 == q2 / 10;
  }

  /** A message as the client puts it on the wire: header, then payload. */
  function Frame(payload: string): (f: string)
    requires |payload| < 10000
    ensures |f| == HeaderWidth + |payload| && f[HeaderWidth..] == payload
  {
    Header(|payload|) + payload
  }

  /**
   * What the server reads: `int(recv(4))` gives the size, then `recv` of
   * that size gives the payload, which is whatever is left when the client
   * sent less before closing (the JSON client always announces 1024). A
   * header `int()` rejects or a negative size raises, here None; so does a
   * header cut short by the end of the stream, after which nothing more
   * could be issued.
   */
  function Unframe(stream: string): (r: Option<(string, string)>)
    ensures r.Some? ==> |r.value.0| + |r.value.1| + HeaderWidth == |stream|
  {
    if |stream| < HeaderWidth then None
    else match ParseInt(stream[..HeaderWidth])
      case None => None
      case Some(n) =>
        if n < 0 then None
        else
          var end := if |stream| - HeaderWidth < n then |stream| else HeaderWidth + n;
          Some((stream[HeaderWidth..end], stream[end..]))
  }

  /**
   * A size no smaller than what is left takes the rest of the stream: the
   * JSON client's fixed "1024" header in front of a shorter request.
   */
  lemma UnframeShort(n: nat, payload: string)
    requires |payload| <= n < 10000
    ensures Unframe(Header(n) + payload) == Some((payload, []))
  {
    var s := Header(n) + payload;
    var h := Header(n);
    assert s[..HeaderWidth] == h;
    HeaderValue(n);
    assert h[0] != '-' && h[0] != '+' by { assert IsDigit(h[0]); }
    assert ParseInt(h) == Some(n);
    assert s[HeaderWidth..|s|] == payload;
  }

  lemma UnframeFrame(payload: string, rest: string)
    requires |payload| < 10000
    ensures Unframe(Frame(payload) + rest) == Some((payload, rest))
  {
    var s := Frame(payload) + rest;
    var h := Header(|payload|);
    assert s[..HeaderWidth] == h;
    HeaderValue(|payload|);
    assert h[0] != '-' && h[0] != '+' by { assert IsDigit(h[0]); }
    assert ParseInt(h) == Some(|payload|);
    assert s[HeaderWidth..HeaderWidth + |payload|] == payload;
    assert s[HeaderWidth + |payload|..] == rest;
  }

  /** A whole client transmission: every payload framed, in order. */
  function FrameAll(payloads: seq<string>): (s: string)
    requires forall k :: 0 <= k < |payloads| ==> |payloads[k]| < 10000
  {
    if payloads == [] then [] else Frame(payloads[0]) + FrameAll(payloads[1..])
  }

  /**
   * The payloads the server's loop reads from a connection, in order: it
   * stops at the end of the stream or at the first frame it cannot read.
   */
  function Frames(stream: string): (ps: seq<string>)
    decreases |stream|
  {
    match Unframe(stream)
    case None => []
    case Some((p, rest)) => [p] + Frames(rest)
  }

  /** One frame in front of anything is read first. */
  lemma FramesFrame(payload: string, rest: string)
    requires |payload| < 10000
    ensures Frames(Frame(payload) + rest) == [payload] + Frames(rest)
  {
    UnframeFrame(payload, rest);
  }

  /** The frames of a whole transmission, followed by anything, come back first and in order. */
  lemma {:induction false} FramesFrameAll(payloads: seq<string>, tail: string)
    requires forall k :: 0 <= k < |payloads| ==> |payloads[k]| < 10000
    ensures Frames(FrameAll(payloads) + tail) == payloads + Frames(tail)
  {
    if payloads == [] {
      assert FrameAll(payloads) + tail == tail;
    } else {
      var rest := FrameAll(payloads[1..]);
      assert FrameAll(payloads) + tail == Frame(payloads[0]) + (rest + tail);
      FramesFrame(payloads[0], rest + tail);
      FramesFrameAll(payloads[1..], tail);
      ConsAppend(payloads, Frames(tail));
    }
  }

  lemma ConsAppend<T>(s: seq<T>, t: seq<T>)
    requires s != []
    ensures [s[0]] + (s[1..] + t) == s + t
  {
  }
}
