/** The standard base64 encoding of section 4 of RFC 4648 (alphabet
    `A-Z a-z 0-9 + /`, `=` padding), as Python's `base64.b64encode` produces
    it, with a strict decoder as its inverse. */
module Base64 {
  import opened Wrappers
  import opened Utf8

  /** The character for a 6-bit value (Table 1 of RFC 4648). */
  function Alphabet(i: nat): (c: char)
    requires i < 64
    ensures c != '='
  {
    if i < 26 then ('A' as int + i) as char
    else if i < 52 then ('a' as int + i - 26) as char
    else if i < 62 then ('0' as int + i - 52) as char
    else if i == 62 then '+'
    else '/'
  }

  /** The 6-bit value a character stands for, if it is in the alphabet. */
  function IndexOf(c: char): (r: Option<nat>)
    ensures r.Some? ==> r.value < 64 && Alphabet(r.value) == c
  {
    if 'A' <= c <= 'Z' then Some(c as int - 'A' as int)
    else if 'a' <= c <= 'z' then Some(c as int - 'a' as int + 26)
    else if '0' <= c <= '9' then Some(c as int - '0' as int + 52)
    else if c == '+' then Some(62)
    else if c == '/' then Some(63)
    else None
  }

  lemma IndexOfAlphabet(i: nat)
    requires i < 64
    ensures IndexOf(Alphabet(i)) == Some(i)
  {
  }

  /** Three bytes as four characters. */
  function EncodeGroup(b0: Byte, b1: Byte, b2: Byte): string {
    [Alphabet(b0 / 4), Alphabet(b0 % 4 * 16 + b1 / 16), Alphabet(b1 % 16 * 4 + b2 / 64), Alphabet(b2 % 64)]
  }

  /** `base64.b64encode(b)`: whole groups from the front, then a final group
      of one or two bytes padded with `==` or `=`. */
  function Encode(b: seq<Byte>): (r: string)
    ensures |r| == 4 * ((|b| + 2) / 3)
  {
    if |b| == 0 then []
    else if |b| == 1 then [Alphabet(b[0] / 4), Alphabet(b[0] % 4 * 16), '=', '=']
    else if |b| == 2 then [Alphabet(b[0] / 4), Alphabet(b[0] % 4 * 16 + b[1] / 16), Alphabet(b[1] % 16 * 4), '=']
    else EncodeGroup(b[0], b[1], b[2]) + Encode(b[3..])
  }

  /** Every character of the output is in the alphabet or is padding. */
  lemma {:induction false} EncodeAlphabet(b: seq<Byte>)
    ensures forall k :: 0 <= k < |Encode(b)| ==> IndexOf(Encode(b)[k]).Some? || Encode(b)[k] == '='
  {
    if |b| == 1 {
      IndexOfAlphabet(b[0] / 4);
      IndexOfAlphabet(b[0] % 4 * 16);
    } else if |b| == 2 {
      IndexOfAlphabet(b[0] / 4);
      IndexOfAlphabet(b[0] % 4 * 16 + b[1] / 16);
      IndexOfAlphabet(b[1] % 16 * 4);
    } else if |b| >= 3 {
      IndexOfAlphabet(b[0] / 4);
      IndexOfAlphabet(b[0] % 4 * 16 + b[1] / 16);
      IndexOfAlphabet(b[1] % 16 * 4 + b[2] / 64);
      IndexOfAlphabet(b[2] % 64);
      EncodeAlphabet(b[3..]);
    }
  }

  /** Four characters without padding as three bytes. */
  function DecodeGroup(q: string): Option<seq<Byte>>
    requires |q| == 4
  {
    match (IndexOf(q[0]), IndexOf(q[1]), IndexOf(q[2]), IndexOf(q[3]))
    case (Some(i0), Some(i1), Some(i2), Some(i3)) =>
      Some([i0 * 4 + i1 / 16, i1 % 16 * 16 + i2 / 4, i2 % 4 * 64 + i3])
    case _ => None
  }

  /** The last four characters, which may end in `=` or `==`; the bits the
      padding leaves over must be zero. */
  function DecodeLast(q: string): Option<seq<Byte>>
    requires |q| == 4
  {
    if q[2] == '=' && q[3] == '=' then
      match (IndexOf(q[0]), IndexOf(q[1]))
      case (Some(i0), Some(i1)) => if i1 % 16 == 0 then Some([i0 * 4 + i1 / 16]) else None
      case _ => None
    else if q[3] == '=' then
      match (IndexOf(q[0]), IndexOf(q[1]), IndexOf(q[2]))
      case (Some(i0), Some(i1), Some(i2)) => if i2 % 4 == 0 then Some([i0 * 4 + i1 / 16, i1 % 16 * 16 + i2 / 4]) else None
      case _ => None
    else DecodeGroup(q)
  }

  /** Strict decoding: a whole number of groups, padding only at the end. */
  function Decode(s: string): Option<seq<Byte>>
    decreases |s|
  {
    if |s| == 0 then Some([])
    else if |s| < 4 then None
    else if |s| == 4 then DecodeLast(s)
    else
      match (DecodeGroup(s[..4]), Decode(s[4..]))
      case (Some(g), Some(rest)) => Some(g + rest)
      case _ => None
  }

  lemma DecodeEncodeGroup(b0: Byte, b1: Byte, b2: Byte)
    ensures DecodeGroup(EncodeGroup(b0, b1, b2)) == Some([b0, b1, b2])
  {
    var i0, i1, i2, i3 := b0 / 4, b0 % 4 * 16 + b1 / 16, b1 % 16 * 4 + b2 / 64, b2 % 64;
    IndexOfAlphabet(i0);
    IndexOfAlphabet(i1);
    IndexOfAlphabet(i2);
    IndexOfAlphabet(i3);
    assert i1 / 16 == b0 % 4 && i1 % 16 == b1 / 16;
    assert i2 / 4 == b1 % 16 && i2 % 4 == b2 / 64;
  }

  lemma DecodeEncodeOne(b0: Byte)
    ensures DecodeLast([Alphabet(b0 / 4), Alphabet(b0 % 4 * 16), '=', '=']) == Some([b0])
  {
    IndexOfAlphabet(b0 / 4);
    IndexOfAlphabet(b0 % 4 * 16);
  }

  lemma DecodeEncodeTwo(b0: Byte, b1: Byte)
    ensures DecodeLast([Alphabet(b0 / 4), Alphabet(b0 % 4 * 16 + b1 / 16), Alphabet(b1 % 16 * 4), '=']) == Some([b0, b1])
  {
    var i1 := b0 % 4 * 16 + b1 / 16;
    IndexOfAlphabet(b0 / 4);
    IndexOfAlphabet(i1);
    IndexOfAlphabet(b1 % 16 * 4);
    assert i1 / 16 == b0 % 4 && i1 % 16 == b1 / 16;
  }

  /** Decoding the encoding of any bytes gives them back. */
  lemma {:induction false} DecodeEncode(b: seq<Byte>)
    ensures Decode(Encode(b)) == Some(b)
  {
    if |b| == 1 {
      DecodeEncodeOne(b[0]);
      assert [b[0]] == b;
    } else if |b| == 2 {
      DecodeEncodeTwo(b[0], b[1]);
      assert [b[0], b[1]] == b;
    } else if |b| >= 3 {
      DecodeEncode(b[3..]);
      DecodeEncodeStep(b);
    }
  }

  /** One whole group in front of a tail that already round-trips. */
  lemma DecodeEncodeStep(b: seq<Byte>)
    requires |b| >= 3 && Decode(Encode(b[3..])) == Some(b[3..])
    ensures Decode(Encode(b)) == Some(b)
  {
    var g := EncodeGroup(b[0], b[1], b[2]);
    var t := Encode(b[3..]);
    assert Encode(b) == g + t;
    DecodeEncodeGroup(b[0], b[1], b[2]);
    FirstThree(b);
    if |b| > 3 {
      DecodeGroupFront(g, t);
    } else {
      assert t == [] && g + t == g;
      assert g[2] != '=' && g[3] != '=';
      assert Decode(Encode(b)) == DecodeLast(g) == DecodeGroup(g);
    }
  }

  lemma FirstThree(b: seq<Byte>)
    requires |b| >= 3
    ensures [b[0], b[1], b[2]] + b[3..] == b
    ensures |b| == 3 ==> [b[0], b[1], b[2]] == b
  {
  }

  lemma DecodeGroupFront(g: string, t: string)
    requires |g| == 4 && |t| > 0
    ensures Decode(g + t) == match (DecodeGroup(g), Decode(t)) case (Some(x), Some(y)) => Some(x + y) case _ => None
  {
    assert (g + t)[..4] == g && (g + t)[4..] == t;
  }
}
