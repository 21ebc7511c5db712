/** The browser functions `btoa` and `atob`: base64 as defined in section 4 of RFC 4648
    (alphabet A-Z a-z 0-9 + /, '=' padding), applied to strings whose characters are bytes.
    The OAuth callback stores seller tokens with `btoa`; both checkout builders read them
    back with `atob`, so `atob(btoa(t)) == t` is what makes a stored token usable. */
module Base64 {
  import opened Wrappers

  type Byte = b: int | 0 <= b < 256
  type Sextet = x: int | 0 <= x < 64

  /** The character of the base64 alphabet that encodes a 6-bit value. */
  function CharOf(x: Sextet): char {
    if x < 26 then ('A' as int + x) as char
    else if x < 52 then ('a' as int + (x - 26)) as char
    else if x < 62 then ('0' as int + (x - 52)) as char
    else if x == 62 then '+'
    else '/'
  }

  /** The 6-bit value a base64 character stands for; padding and foreign characters have none. */
  function SextetOf(c: char): Option<Sextet> {
    if 'A' <= c <= 'Z' then Some(c as int - 'A' as int)
    else if 'a' <= c <= 'z' then Some(c as int - 'a' as int + 26)
    else if '0' <= c <= '9' then Some(c as int - '0' as int + 52)
    else if c == '+' then Some(62)
    else if c == '/' then Some(63)
    else None
  }

  lemma SextetOfCharOf(x: Sextet)
    ensures SextetOf(CharOf(x)) == Some(x)
    ensures CharOf(x) != '='
  {
  }

  /** Three bytes become four characters. */
  function EncodeTriple(b0: Byte, b1: Byte, b2: Byte): string {
    [CharOf(b0 / 4), CharOf((b0 % 4) * 16 + b1 / 16), CharOf((b1 % 16) * 4 + b2 / 64), CharOf(b2 % 64)]
  }

  /** Encoding of a byte string: one quadruple per three bytes, the last one padded with '='. */
  function Encode(bytes: seq<Byte>): (s: string)
    ensures |s| % 4 == 0
    ensures |s| == (|bytes| + 2) / 3 * 4
    decreases |bytes|
  {
    if |bytes| == 0 then ""
    else if |bytes| == 1 then [CharOf(bytes[0] / 4), CharOf((bytes[0] % 4) * 16), '=', '=']
    else if |bytes| == 2 then
      [CharOf(bytes[0] / 4), CharOf((bytes[0] % 4) * 16 + bytes[1] / 16), CharOf((bytes[1] % 16) * 4), '=']
    else
      EncodedLengthStep(|bytes|);
      EncodeTriple(bytes[0], bytes[1], bytes[2]) + Encode(bytes[3..])
  }

  /** Three bytes more take four characters more. */
  lemma EncodedLengthStep(n: int)
    requires n >= 3
    ensures (n + 2) / 3 * 4 == (n - 3 + 2) / 3 * 4 + 4
  {
  }

  /** The bytes carried by the first two, three or four 6-bit values of a quadruple. */
  function OneByte(x0: int, x1: int): seq<Byte>
    requires 0 <= x0 < 64 && 0 <= x1 < 64
  {
    [x0 * 4 + x1 / 16]
  }

  function TwoBytes(x0: int, x1: int, x2: int): seq<Byte>
    requires 0 <= x0 < 64 && 0 <= x1 < 64 && 0 <= x2 < 64
  {
    OneByte(x0, x1) + [(x1 % 16) * 16 + x2 / 4]
  }

  function ThreeBytes(x0: int, x1: int, x2: int, x3: int): seq<Byte>
    requires 0 <= x0 < 64 && 0 <= x1 < 64 && 0 <= x2 < 64 && 0 <= x3 < 64
  {
    TwoBytes(x0, x1, x2) + [(x2 % 4) * 64 + x3]
  }

  /** Decoding of one quadruple; padding is accepted only in the final quadruple. */
  function DecodeQuad(q: string, last: bool): Option<seq<Byte>>
    requires |q| == 4
  {
    match (SextetOf(q[0]), SextetOf(q[1]), SextetOf(q[2]), SextetOf(q[3]))
    case (Some(x0), Some(x1), Some(x2), Some(x3)) => Some(ThreeBytes(x0, x1, x2, x3))
    case (Some(x0), Some(x1), Some(x2), None) =>
      if last && q[3] == '=' then Some(TwoBytes(x0, x1, x2)) else None
    case (Some(x0), Some(x1), None, None) =>
      if last && q[2] == '=' && q[3] == '=' then Some(OneByte(x0, x1)) else None
    case _ => None
  }

  /** Decoding of canonical padded base64 text; anything else is rejected. */
  function Decode(s: string): Option<seq<Byte>>
    decreases |s|
  {
    if |s| == 0 then Some([])
    else if |s| < 4 then None
    else
      match DecodeQuad(s[..4], |s| == 4)
      case None => None
      case Some(head) =>
        match Decode(s[4..])
        case None => None
        case Some(tail) => Some(head + tail)
  }

  lemma TripleRoundTrip(b0: Byte, b1: Byte, b2: Byte, last: bool)
    ensures DecodeQuad(EncodeTriple(b0, b1, b2), last) == Some([b0, b1, b2])
  {
    var x0, x1, x2, x3 := b0 / 4, (b0 % 4) * 16 + b1 / 16, (b1 % 16) * 4 + b2 / 64, b2 % 64;
    SextetOfCharOf(x0); SextetOfCharOf(x1); SextetOfCharOf(x2); SextetOfCharOf(x3);
    assert x1 / 16 == b0 % 4 && x1 % 16 == b1 / 16;
    assert x2 / 4 == b1 % 16 && x2 % 4 == b2 / 64;
    assert ThreeBytes(x0, x1, x2, x3) == [b0, b1, b2];
  }

  lemma PairRoundTrip(b0: Byte, b1: Byte)
    ensures Decode(Encode([b0, b1])) == Some([b0, b1])
  {
    var s := Encode([b0, b1]);
    var x0, x1, x2 := b0 / 4, (b0 % 4) * 16 + b1 / 16, (b1 % 16) * 4;
    SextetOfCharOf(x0); SextetOfCharOf(x1); SextetOfCharOf(x2);
    assert s[..4] == s && s[4..] == [];
    assert x1 / 16 == b0 % 4 && x1 % 16 == b1 / 16;
    assert x2 / 4 == b1 % 16;
    assert TwoBytes(x0, x1, x2) == [b0, b1];
    assert SextetOf(s[3]) == None;
    assert DecodeQuad(s[..4], true) == Some([b0, b1]);
    assert Decode(s[4..]) == Some([]);
    assert [b0, b1] + [] == [b0, b1];
  }

  lemma SingleRoundTrip(b0: Byte)
    ensures Decode(Encode([b0])) == Some([b0])
  {
    var s := Encode([b0]);
    var x0, x1 := b0 / 4, (b0 % 4) * 16;
    SextetOfCharOf(x0); SextetOfCharOf(x1);
    assert s[..4] == s && s[4..] == [];
    assert x1 / 16 == b0 % 4;
    assert OneByte(x0, x1) == [b0];
    assert SextetOf(s[2]) == None && SextetOf(s[3]) == None;
    assert DecodeQuad(s[..4], true) == Some([b0]);
    assert Decode(s[4..]) == Some([]);
    assert [b0] + [] == [b0];
  }

  lemma EncodeStep(bytes: seq<Byte>)
    requires |bytes| >= 3
    ensures Encode(bytes) == EncodeTriple(bytes[0], bytes[1], bytes[2]) + Encode(bytes[3..])
  {
  }

  lemma DecodeUnfold(s: string, head: seq<Byte>, tail: seq<Byte>)
    requires |s| >= 4
    requires DecodeQuad(s[..4], |s| == 4) == Some(head)
    requires Decode(s[4..]) == Some(tail)
    ensures Decode(s) == Some(head + tail)
  {
  }

  lemma QuadThenRest<T>(head: seq<T>, rest: seq<T>)
    requires |head| == 4
    ensures |head + rest| >= 4 && (head + rest)[..4] == head && (head + rest)[4..] == rest
  {
  }

  lemma TripleThenTail<T>(xs: seq<T>)
    requires |xs| >= 3
    ensures [xs[0], xs[1], xs[2]] + xs[3..] == xs
  {
  }

  /** One step of the induction: a leading triple followed by text that already round-trips. */
  lemma TripleThenRest(bytes: seq<Byte>)
    requires |bytes| >= 3
    requires Decode(Encode(bytes[3..])) == Some(bytes[3..])
    ensures Decode(EncodeTriple(bytes[0], bytes[1], bytes[2]) + Encode(bytes[3..])) == Some(bytes)
  {
    var head := EncodeTriple(bytes[0], bytes[1], bytes[2]);
    var rest := Encode(bytes[3..]);
    var s := head + rest;
    QuadThenRest(head, rest);
    TripleRoundTrip(bytes[0], bytes[1], bytes[2], |s| == 4);
    DecodeUnfold(s, [bytes[0], bytes[1], bytes[2]], bytes[3..]);
    TripleThenTail(bytes);
  }

  /** Decoding what was encoded gives back the original bytes. */
  lemma {:induction false} DecodeEncode(bytes: seq<Byte>)
    ensures Decode(Encode(bytes)) == Some(bytes)
    decreases |bytes|
  {
    if |bytes| == 1 {
      assert bytes == [bytes[0]];
      SingleRoundTrip(bytes[0]);
    } else if |bytes| == 2 {
      assert bytes == [bytes[0], bytes[1]];
      PairRoundTrip(bytes[0], bytes[1]);
    } else if |bytes| >= 3 {
      DecodeEncode(bytes[3..]);
      TripleThenRest(bytes);
      EncodeStep(bytes);
    }
  }

  /** A string `btoa` accepts: every character code fits in one byte (Latin-1). */
  predicate IsByteString(s: string) {
    forall i :: 0 <= i < |s| ==> s[i] as int < 256
  }

  function BytesOf(s: string): (b: seq<Byte>)
    requires IsByteString(s)
    ensures |b| == |s|
  {
    seq(|s|, i requires 0 <= i < |s| => s[i] as int as Byte)
  }

  function CharsOf(b: seq<Byte>): (s: string)
    ensures |s| == |b|
  {
    seq(|b|, i requires 0 <= i < |b| => b[i] as char)
  }

  /** `btoa(s)`: the base64 text of `s`, or a thrown InvalidCharacterError (None) when `s`
      holds a character outside Latin-1. */
  function Btoa(s: string): (r: Option<string>)
    ensures r.Some? <==> IsByteString(s)
    ensures r.Some? ==> |r.value| % 4 == 0
  {
    if IsByteString(s) then Some(Encode(BytesOf(s))) else None
  }

  /** `atob(t)`: the byte string `t` encodes, or a thrown error (None) for text that is not
      canonical base64. */
  function Atob(t: string): (r: Option<string>)
    ensures r.Some? ==> IsByteString(r.value)
  {
    match Decode(t)
    case None => None
    case Some(b) => Some(CharsOf(b))
  }

  /** The round trip the token store relies on: whatever `btoa` accepted, `atob` restores. */
  lemma AtobBtoa(s: string)
    requires IsByteString(s)
    ensures Btoa(s).Some? && Atob(Btoa(s).value) == Some(s)
  {
    DecodeEncode(BytesOf(s));
    assert CharsOf(BytesOf(s)) == s;
  }
}
