/**
 * The client identity main derives when no username is configured
 * (cmd/talkiepi/main.go, lines 77-89): six random bytes, bit 0x02 of the
 * first one set, rendered as "talkiepi-" and twelve lower-case hex digits.
 */
module Identity {
  import opened Wrappers

  /** Number of random bytes drawn for a generated name. */
  const DrawLength: nat := 6

  const Prefix: string := "talkiepi-"

  predicate IsLowerHex(c: char) {
    '0' <= c <= '9' || 'a' <= c <= 'f'
  }

  /** The value of one lower-case hex digit, or None for any other character. */
  function DigitValue(c: char): (r: Option<int>)
    ensures r.Some? <==> IsLowerHex(c)
    ensures r.Some? ==> 0 <= r.value < 16
  {
    if '0' <= c <= '9' then Some(c as int - '0' as int)
    else if 'a' <= c <= 'f' then Some(c as int - 'a' as int + 10)
    else None
  }

  /** The lower-case hex digit for a nibble, as `%x` writes it. */
  function HexDigit(n: int): (c: char)
    requires 0 <= n < 16
    ensures IsLowerHex(c) && DigitValue(c) == Some(n)
  {
    if n < 10 then ('0' as int + n) as char else ('a' as int + n - 10) as char
  }

  /** `b |= 2`: bit 0x02 is set and the other seven bits are as they were. */
  function SetLocalBit(b: byte): (r: byte)
    ensures (r as int / 2) % 2 == 1
    ensures r as int % 2 == b as int % 2
    ensures r as int / 4 == b as int / 4
  {
    if (b as int / 2) % 2 == 1 then b else b + 2
  }

  /** `buf[0] |= 2` applied to the drawn bytes: only the first byte changes. */
  function MarkLocal(raw: seq<byte>): (r: seq<byte>)
    requires |raw| > 0
    ensures |r| == |raw| && r[1..] == raw[1..]
    ensures (r[0] as int / 2) % 2 == 1
    ensures r[0] as int % 2 == raw[0] as int % 2 && r[0] as int / 4 == raw[0] as int / 4
  {
    raw[0 := SetLocalBit(raw[0])]
  }

  /** One `%02x` conversion: two digits, high nibble first, leading zero kept. */
  function HexByte(b: byte): (s: string)
    ensures |s| == 2 && IsLowerHex(s[0]) && IsLowerHex(s[1])
    ensures DigitValue(s[0]).value * 16 + DigitValue(s[1]).value == b as int
  {
    [HexDigit(b as int / 16), HexDigit(b as int % 16)]
  }

  /** The bytes rendered one `%02x` after another, in order. */
  function HexEncode(bs: seq<byte>): (s: string)
    ensures |s| == 2 * |bs|
    ensures forall i :: 0 <= i < |s| ==> IsLowerHex(s[i])
  {
    if bs == [] then [] else HexByte(bs[0]) + HexEncode(bs[1..])
  }

  /** Reads back pairs of lower-case hex digits; None on odd length or a stray character. */
  function HexDecode(s: string): Option<seq<byte>>
    decreases |s|
  {
    if s == [] then Some([])
    else if |s| < 2 || !IsLowerHex(s[0]) || !IsLowerHex(s[1]) then None
    else
      match HexDecode(s[2..])
      case None => None
      case Some(rest) =>
        Some([(DigitValue(s[0]).value * 16 + DigitValue(s[1]).value) as byte] + rest)
  }

  /**
   * The Sprintf of line 86: the prefix, then the six bytes as `%02x` each.
   * The result has the fixed shape of a generated name: 21 characters, the
   * prefix, then twelve lower-case hex digits that encode the bytes in order.
   */
  function FormatUsername(buf: seq<byte>): (name: string)
    requires |buf| == DrawLength
    ensures |name| == |Prefix| + 2 * DrawLength == 21
    ensures name[..|Prefix|] == Prefix
    ensures name[|Prefix|..] == HexEncode(buf)
    ensures forall i :: |Prefix| <= i < |name| ==> IsLowerHex(name[i])
  {
    var name := Prefix + HexByte(buf[0]) + HexByte(buf[1]) + HexByte(buf[2])
                       + HexByte(buf[3]) + HexByte(buf[4]) + HexByte(buf[5]);
    assert name[|Prefix|..] == HexEncode(buf) by {
      assert buf == [buf[0]] + [buf[1]] + [buf[2]] + [buf[3]] + [buf[4]] + [buf[5]];
      UnfoldHexEncode(buf);
    }
    name
  }

  lemma UnfoldHexEncode(buf: seq<byte>)
    requires |buf| == 6
    ensures HexEncode(buf) == HexByte(buf[0]) + HexByte(buf[1]) + HexByte(buf[2])
                            + HexByte(buf[3]) + HexByte(buf[4]) + HexByte(buf[5])
  {
    assert HexEncode(buf[5..]) == HexByte(buf[5]) + HexEncode([]);
    assert HexEncode(buf[4..]) == HexByte(buf[4]) + HexEncode(buf[5..]);
    assert HexEncode(buf[3..]) == HexByte(buf[3]) + HexEncode(buf[4..]);
    assert HexEncode(buf[2..]) == HexByte(buf[2]) + HexEncode(buf[3..]);
    assert HexEncode(buf[1..]) == HexByte(buf[1]) + HexEncode(buf[2..]);
  }

  /** Recognises a generated name: the prefix followed by exactly six hex-encoded bytes. */
  function ParseUsername(name: string): Option<seq<byte>>
  {
    if |name| < |Prefix| || name[..|Prefix|] != Prefix then None
    else
      match HexDecode(name[|Prefix|..])
      case Some(bs) => if |bs| == DrawLength then Some(bs) else None
      case None => None
  }

  /** The rendering of a known buffer, digit for digit. */
  lemma FormatUsernameExample()
    ensures FormatUsername([0xa1, 0xb2, 0xc3, 0xd4, 0xe5, 0xf6]) == "talkiepi-a1b2c3d4e5f6"
  {
  }

  /** Decoding inverts encoding. */
  lemma {:induction false} HexDecodeEncode(bs: seq<byte>)
    ensures HexDecode(HexEncode(bs)) == Some(bs)
  {
    if bs != [] {
      var s := HexEncode(bs);
      assert s[2..] == HexEncode(bs[1..]);
      HexDecodeEncode(bs[1..]);
      assert [bs[0]] + bs[1..] == bs;
    }
  }

  /** Encoding inverts decoding: only a canonical lower-case rendering decodes. */
  lemma {:induction false} HexEncodeDecode(s: string, bs: seq<byte>)
    requires HexDecode(s) == Some(bs)
    ensures HexEncode(bs) == s
  {
    if s != [] {
      var rest := HexDecode(s[2..]).value;
      HexEncodeDecode(s[2..], rest);
      var b := bs[0];
      assert bs[1..] == rest;
      var d0, d1 := DigitValue(s[0]).value, DigitValue(s[1]).value;
      assert b as int == d0 * 16 + d1;
      assert b as int / 16 == d0 && b as int % 16 == d1;
      assert HexDigit(d0) == s[0] && HexDigit(d1) == s[1];
      assert HexByte(b) == s[..2];
      assert s == s[..2] + s[2..];
    }
  }

  /** A generated name reads back as exactly the bytes it was rendered from. */
  lemma UsernameRoundTrip(buf: seq<byte>)
    requires |buf| == DrawLength
    ensures ParseUsername(FormatUsername(buf)) == Some(buf)
  {
    HexDecodeEncode(buf);
  }

  /** Conversely, every name the parser accepts is the rendering of what it decodes to. */
  lemma ParsedUsernameIsFormatted(name: string, bs: seq<byte>)
    requires ParseUsername(name) == Some(bs)
    ensures |bs| == DrawLength && FormatUsername(bs) == name
  {
    HexEncodeDecode(name[|Prefix|..], bs);
    assert name == name[..|Prefix|] + name[|Prefix|..];
  }

  /** Distinct marked draws give distinct names. */
  lemma FormatUsernameInjective(a: seq<byte>, b: seq<byte>)
    requires |a| == DrawLength && |b| == DrawLength
    requires FormatUsername(a) == FormatUsername(b)
    ensures a == b
  {
    UsernameRoundTrip(a);
    UsernameRoundTrip(b);
  }

  /**
   * What a generated name carries: decoding it gives back the drawn bytes
   * except that the first has bit 0x02 set, so its second hex digit (the
   * eleventh character of the name) is one of 2, 3, 6, 7, a, b, e, f.
   */
  lemma GeneratedUsername(raw: seq<byte>)
    requires |raw| == DrawLength
    ensures var name := FormatUsername(MarkLocal(raw));
      && ParseUsername(name) == Some(MarkLocal(raw))
      && MarkLocal(raw)[1..] == raw[1..]
      && (MarkLocal(raw)[0] as int / 2) % 2 == 1
      && name[10] in "2367abef"
  {
    var marked := MarkLocal(raw);
    UsernameRoundTrip(marked);
    MarkerDigit(marked[0]);
    assert FormatUsername(marked)[9..11] == HexByte(marked[0]);
  }

  /** The low nibble of a byte with bit 0x02 set renders as 2, 3, 6, 7, a, b, e or f. */
  lemma MarkerDigit(b: byte)
    requires (b as int / 2) % 2 == 1
    ensures HexByte(b)[1] in "2367abef"
  {
    var lo := b as int % 16;
    assert (lo / 2) % 2 == 1 by {
      assert b as int == 16 * (b as int / 16) + lo;
      assert b as int / 2 == 8 * (b as int / 16) + lo / 2;
    }
    assert lo in {2, 3, 6, 7, 10, 11, 14, 15};
  }

  /**
   * Lines 85-86 in place: the first byte of the buffer gets bit 0x02, then
   * the marked buffer is rendered as the username.
   */
  method MarkAndFormat(buf: array<byte>) returns (name: string)
    requires buf.Length == DrawLength
    modifies buf
    ensures buf[..] == MarkLocal(old(buf[..]))
    ensures name == FormatUsername(buf[..])
  {
    buf[0] := SetLocalBit(buf[0]);
    name := FormatUsername(buf[..]);
  }
}
