/** Base64 with the standard alphabet and `=` padding (section 4 of RFC 4648), as `Buffer` writes it. */
module Base64 {
  import opened Wrappers
  import opened Bytes

  function Alphabet(i: nat): (c: char)
    requires i < 64
    ensures c != '='
  {
    if i < 26 then ('A' as int + i) as char
    else if i < 52 then ('a' as int + i - 26) as char
    else if i < 62 then ('0' as int + i - 52) as char
    else if i == 62 then '+'
    else '/'
  }

  /** The index of an alphabet character, or -1 for any other character. */
  function IndexOf(c: char): (v: int)
    ensures -1 <= v < 64
  {
    if 'A' <= c <= 'Z' then c as int - 'A' as int
    else if 'a' <= c <= 'z' then c as int - 'a' as int + 26
    else if '0' <= c <= '9' then c as int - '0' as int + 52
    else if c == '+' then 62
    else if c == '/' then 63
    else -1
  }

  lemma IndexOfAlphabet(i: nat)
    requires i < 64
    ensures IndexOf(Alphabet(i)) == i
  {
  }

  /** Three bytes as four characters. */
  function EncodeGroup(b0: byte, b1: byte, b2: byte): (s: string)
    ensures |s| == 4
  {
    [Alphabet(b0 / 4), Alphabet((b0 % 4) * 16 + b1 / 16), Alphabet((b1 % 16) * 4 + b2 / 64), Alphabet(b2 % 64)]
  }

  /** `buf.toString("base64")`. */
  function Encode(b: seq<byte>): (s: string)
    ensures |s| % 4 == 0
    ensures |s| == 4 * ((|b| + 2) / 3)
  {
    if |b| == 0 then ""
    else if |b| == 1 then [Alphabet(b[0] / 4), Alphabet((b[0] % 4) * 16), '=', '=']
    else if |b| == 2 then [Alphabet(b[0] / 4), Alphabet((b[0] % 4) * 16 + b[1] / 16), Alphabet((b[1] % 16) * 4), '=']
    else EncodeGroup(b[0], b[1], b[2]) + Encode(b[3..])
  }

  /**
   * Strict decoding: a sequence of four-character groups, `=` padding only in the last group.
   * Node's own decoder also skips characters outside the alphabet; that leniency is not modelled.
   */
  function Decode(s: string): (r: Option<seq<byte>>)
    decreases |s|
  {
    if |s| == 0 then Some([])
    else if |s| < 4 then None
    else
      var c0, c1, c2, c3 := IndexOf(s[0]), IndexOf(s[1]), IndexOf(s[2]), IndexOf(s[3]);
      if c0 < 0 || c1 < 0 then None
      else if |s| == 4 && s[2] == '=' && s[3] == '=' then
        Some([c0 * 4 + c1 / 16])
      else if c2 < 0 then None
      else if |s| == 4 && s[3] == '=' then
        Some([c0 * 4 + c1 / 16, (c1 % 16) * 16 + c2 / 4])
      else if c3 < 0 then None
      else
        match Decode(s[4..])
        case None => None
        case Some(rest) => Some([c0 * 4 + c1 / 16, (c1 % 16) * 16 + c2 / 4, (c2 % 4) * 64 + c3] + rest)
  }

  lemma GroupArithmetic(b0: byte, b1: byte, b2: byte)
    ensures (b0 / 4) * 4 + ((b0 % 4) * 16 + b1 / 16) / 16 == b0
    ensures (((b0 % 4) * 16 + b1 / 16) % 16) * 16 + ((b1 % 16) * 4 + b2 / 64) / 4 == b1
    ensures (((b1 % 16) * 4 + b2 / 64) % 4) * 64 + b2 % 64 == b2
  {
  }

  lemma DecodeLastOne(b0: byte)
    ensures Decode([Alphabet(b0 / 4), Alphabet((b0 % 4) * 16), '=', '=']) == Some([b0])
  {
    IndexOfAlphabet(b0 / 4);
    IndexOfAlphabet((b0 % 4) * 16);
    GroupArithmetic(b0, 0, 0);
  }

  lemma DecodeLastTwo(b0: byte, b1: byte)
    ensures Decode([Alphabet(b0 / 4), Alphabet((b0 % 4) * 16 + b1 / 16), Alphabet((b1 % 16) * 4), '='])
            == Some([b0, b1])
  {
    IndexOfAlphabet(b0 / 4);
    IndexOfAlphabet((b0 % 4) * 16 + b1 / 16);
    IndexOfAlphabet((b1 % 16) * 4);
    GroupArithmetic(b0, b1, 0);
  }

  lemma DecodeGroupThen(b0: byte, b1: byte, b2: byte, rest: string)
    ensures Decode(EncodeGroup(b0, b1, b2) + rest)
            == match Decode(rest)
               case None => None
               case Some(r) => Some([b0, b1, b2] + r)
  {
    var s := EncodeGroup(b0, b1, b2) + rest;
    assert s[4..] == rest;
    IndexOfAlphabet(b0 / 4);
    IndexOfAlphabet((b0 % 4) * 16 + b1 / 16);
    IndexOfAlphabet((b1 % 16) * 4 + b2 / 64);
    IndexOfAlphabet(b2 % 64);
    GroupArithmetic(b0, b1, b2);
  }

  /** Decoding what `Encode` wrote gives the bytes back. */
  lemma {:induction false} DecodeEncode(b: seq<byte>)
    ensures Decode(Encode(b)) == Some(b)
  {
    if |b| == 0 {
    } else if |b| == 1 {
      DecodeLastOne(b[0]);
      assert b == [b[0]];
    } else if |b| == 2 {
      DecodeLastTwo(b[0], b[1]);
      assert b == [b[0], b[1]];
    } else {
      DecodeGroupThen(b[0], b[1], b[2], Encode(b[3..]));
      DecodeEncode(b[3..]);
      assert b == [b[0], b[1], b[2]] + b[3..];
    }
  }
}
