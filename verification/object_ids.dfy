/**
 * BSON ObjectIds as the server handles them: twelve raw bytes, rendered by
 * `str(ObjectId)` as 24 lower-case hexadecimal digits, and parsed back by
 * `ObjectId(s)`, which accepts exactly 24 hexadecimal digits of either case
 * and raises `InvalidId` on anything else.
 */
module ObjectIds {
  import opened Wrappers

  newtype byte = x: int | 0 <= x < 256

  /** The raw value of an ObjectId is always twelve bytes long. */
  type IdBytes = s: seq<byte> | |s| == 12 witness [0, 0, 0, 0, 0, 0, 0, 0, 0, 0, 0, 0]

  datatype ObjectId = ObjectId(raw: IdBytes)

  predicate IsLowerHexDigit(c: char) {
    '0' <= c <= '9' || 'a' <= c <= 'f'
  }

  /** The lower-case digit for a nibble. */
  function HexDigit(n: int): (c: char)
    requires 0 <= n < 16
    ensures IsLowerHexDigit(c)
  {
    if n < 10 then ('0' as int + n) as char else ('a' as int + n - 10) as char
  }

  /** The value of one hexadecimal digit of either case, as `bytes.fromhex` reads it. */
  function DigitValue(c: char): (r: Option<int>)
    ensures r.Some? ==> 0 <= r.value < 16
  {
    if '0' <= c <= '9' then Some(c as int - '0' as int)
    else if 'a' <= c <= 'f' then Some(c as int - 'a' as int + 10)
    else if 'A' <= c <= 'F' then Some(c as int - 'A' as int + 10)
    else None
  }

  /** Two lower-case digits per byte, high nibble first. */
  function Hex(bs: seq<byte>): (s: string)
    ensures |s| == 2 * |bs|
    ensures forall i :: 0 <= i < |s| ==> IsLowerHexDigit(s[i])
  {
    if bs == [] then []
    else [HexDigit(bs[0] as int / 16), HexDigit(bs[0] as int % 16)] + Hex(bs[1..])
  }

  /** Pairs of digits back to bytes; `None` for an odd length or a non-digit. */
  function Unhex(s: string): (r: Option<seq<byte>>)
    ensures r.Some? ==> 2 * |r.value| == |s|
  {
    if |s| == 0 then Some([])
    else if |s| == 1 then None
    else
      match (DigitValue(s[0]), DigitValue(s[1]), Unhex(s[2..]))
      case (Some(hi), Some(lo), Some(rest)) => Some([(hi * 16 + lo) as byte] + rest)
      case _ => None
  }

  /** `str(oid)`: the 24-digit lower-case rendering. */
  function ToString(id: ObjectId): (s: string)
    ensures |s| == 24
    ensures forall i :: 0 <= i < |s| ==> IsLowerHexDigit(s[i])
  {
    Hex(id.raw)
  }

  /** `ObjectId(s)`: `None` stands for the `InvalidId` exception. */
  function Parse(s: string): (r: Option<ObjectId>)
    ensures r.Some? ==> |s| == 24
  {
    if |s| != 24 then None
    else
      match Unhex(s)
      case None => None
      case Some(bs) => Some(ObjectId(bs))
  }

  lemma DigitValueOfHexDigit(n: int)
    requires 0 <= n < 16
    ensures DigitValue(HexDigit(n)) == Some(n)
  {
  }

  /** Decoding inverts the rendering, for byte strings of any length. */
  lemma {:induction false} UnhexHex(bs: seq<byte>)
    ensures Unhex(Hex(bs)) == Some(bs)
  {
    if bs != [] {
      var b := bs[0] as int;
      var s := Hex(bs);
      assert s[2..] == Hex(bs[1..]);
      DigitValueOfHexDigit(b / 16);
      DigitValueOfHexDigit(b % 16);
      UnhexHex(bs[1..]);
      assert [(b / 16 * 16 + b % 16) as byte] + bs[1..] == bs;
    }
  }

  /** An id rendered by `str` parses back to the same id. */
  lemma ParseToString(id: ObjectId)
    ensures Parse(ToString(id)) == Some(id)
  {
    UnhexHex(id.raw);
  }

  /** Two ids have the same rendering only if they are the same id. */
  lemma ToStringInjective(a: ObjectId, b: ObjectId)
    ensures ToString(a) == ToString(b) <==> a == b
  {
    if ToString(a) == ToString(b) {
      ParseToString(a);
      ParseToString(b);
    }
  }

  /** `Unhex` succeeds exactly on strings of even length made of digits. */
  lemma {:induction false} UnhexDefined(s: string)
    ensures Unhex(s).Some? <==> |s| % 2 == 0 && forall i :: 0 <= i < |s| ==> DigitValue(s[i]).Some?
  {
    if |s| >= 2 {
      UnhexDefined(s[2..]);
      assert forall i :: 2 <= i < |s| ==> s[i] == s[2..][i - 2];
    }
  }

  /** `ObjectId(s)` accepts exactly the strings of 24 hexadecimal digits. */
  lemma ParseAccepts(s: string)
    ensures Parse(s).Some? <==> |s| == 24 && forall i :: 0 <= i < |s| ==> DigitValue(s[i]).Some?
  {
    UnhexDefined(s);
  }
}
