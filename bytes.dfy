/** Bytes, Node's `Buffer.slice` index rules and Node's lenient hex decoding. */
module Bytes {

  type byte = x: int | 0 <= x < 256

  /** How `Buffer.slice` normalises one index: negative counts from the end, then clamp to [0, len]. */
  function ClampIndex(i: int, len: nat): (r: nat)
    ensures r <= len
    ensures 0 <= i <= len ==> r == i
  {
    if i < 0 then (if i + len < 0 then 0 else i + len)
    else if i > len then len
    else i
  }

  /** `buf.slice(start, end)`: an empty buffer when the normalised end does not exceed the start. */
  function Slice(buf: seq<byte>, start: int, end: int): (r: seq<byte>)
    ensures 0 <= start <= end <= |buf| ==> r == buf[start..end]
  {
    var s := ClampIndex(start, |buf|);
    var e := ClampIndex(end, |buf|);
    if e <= s then [] else buf[s..e]
  }

  function HexValue(c: char): (v: int)
    ensures -1 <= v < 16
  {
    if '0' <= c <= '9' then c as int - '0' as int
    else if 'a' <= c <= 'f' then c as int - 'a' as int + 10
    else if 'A' <= c <= 'F' then c as int - 'A' as int + 10
    else -1
  }

  predicate IsHexDigit(c: char) {
    HexValue(c) >= 0
  }

  /**
   * `Buffer.from(s, "hex")`: pairs of hex digits become bytes; decoding stops silently at the first
   * pair that is not two hex digits, and an unpaired last digit is dropped.
   */
  function HexDecode(s: string): (r: seq<byte>)
    ensures |r| <= |s| / 2
  {
    if |s| >= 2 && IsHexDigit(s[0]) && IsHexDigit(s[1]) then
      [HexValue(s[0]) * 16 + HexValue(s[1])] + HexDecode(s[2..])
    else []
  }

  /** A string of 2n hex digits decodes to exactly n bytes: a 64-character hex key gives 32 bytes. */
  lemma {:induction false} HexDecodeLength(s: string)
    requires |s| % 2 == 0
    requires forall i :: 0 <= i < |s| ==> IsHexDigit(s[i])
    ensures |HexDecode(s)| == |s| / 2
  {
    if |s| >= 2 {
      HexDecodeLength(s[2..]);
    }
  }

  /** Any character that is not a hex digit among the first 2n characters leaves fewer than n bytes. */
  lemma {:induction false} HexDecodeStopsEarly(s: string, n: nat)
    requires 2 * n <= |s|
    requires exists i :: 0 <= i < 2 * n && !IsHexDigit(s[i])
    ensures |HexDecode(s)| < n
  {
    if |s| >= 2 && IsHexDigit(s[0]) && IsHexDigit(s[1]) {
      var i :| 0 <= i < 2 * n && !IsHexDigit(s[i]);
      assert i >= 2;
      assert !IsHexDigit(s[2..][i - 2]);
      HexDecodeStopsEarly(s[2..], n - 1);
    }
  }
}
