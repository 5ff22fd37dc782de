/** The state and session tokens: 32 random bytes written in the standard
    base64 alphabet with '=' padding (section 4 of RFC 4648). */
module Base64 {
  import opened Base

  /** The 64 characters of the standard alphabet. */
  predicate IsSymbol(c: char) {
    ('A' <= c <= 'Z') || ('a' <= c <= 'z') || ('0' <= c <= '9') || c == '+' || c == '/'
  }

  function Symbol(v: nat): (c: char)
    requires v < 64
    ensures IsSymbol(c)
  {
    if v < 26 then ('A' as int + v) as char
    else if v < 52 then ('a' as int + (v - 26)) as char
    else if v < 62 then ('0' as int + (v - 52)) as char
    else if v == 62 then '+'
    else '/'
  }

  function Value(c: char): (v: nat)
    requires IsSymbol(c)
    ensures v < 64 && Symbol(v) == c
  {
    if 'A' <= c <= 'Z' then c as int - 'A' as int
    else if 'a' <= c <= 'z' then c as int - 'a' as int + 26
    else if '0' <= c <= '9' then c as int - '0' as int + 52
    else if c == '+' then 62
    else 63
  }

  lemma {:induction false} ValueOfSymbol(v: nat)
    requires v < 64
    ensures Value(Symbol(v)) == v
  {
    if v < 26 {
    } else if v < 52 {
    } else if v < 62 {
    }
  }

  /** Three bytes become four symbols of six bits each. */
  function EncodeGroup(b0: byte, b1: byte, b2: byte): (g: string) {
    [Symbol(b0 as int / 4), Symbol((b0 as int % 4) * 16 + b1 as int / 16),
     Symbol((b1 as int % 16) * 4 + b2 as int / 64), Symbol(b2 as int % 64)]
  }

  /** A trailing single byte: two symbols and "==". */
  function EncodeOne(b0: byte): (g: string) {
    [Symbol(b0 as int / 4), Symbol((b0 as int % 4) * 16), '=', '=']
  }

  /** A trailing pair of bytes: three symbols and one '='. */
  function EncodeTwo(b0: byte, b1: byte): (g: string) {
    [Symbol(b0 as int / 4), Symbol((b0 as int % 4) * 16 + b1 as int / 16),
     Symbol((b1 as int % 16) * 4), '=']
  }

  /** The padded encoding, three bytes at a time. */
  function Encode(bs: seq<byte>): (s: string)
    ensures |s| == 4 * ((|bs| + 2) / 3)
  {
    if |bs| == 0 then []
    else if |bs| == 1 then EncodeOne(bs[0])
    else if |bs| == 2 then EncodeTwo(bs[0], bs[1])
    else EncodeGroup(bs[0], bs[1], bs[2]) + Encode(bs[3..])
  }

  /** Four symbols give back three bytes. */
  function DecodeGroup(c0: char, c1: char, c2: char, c3: char): (bs: seq<byte>)
    requires IsSymbol(c0) && IsSymbol(c1) && IsSymbol(c2) && IsSymbol(c3)
  {
    [(Value(c0) * 4 + Value(c1) / 16) as byte,
     ((Value(c1) % 16) * 16 + Value(c2) / 4) as byte,
     ((Value(c2) % 4) * 64 + Value(c3)) as byte]
  }

  /** One group of four characters, padded or not; None when a character is
      outside the alphabet, padding is misplaced, or the bits a padded group
      leaves unused are not zero (the canonical encoding of section 3.5 of
      RFC 4648). */
  function DecodeQuad(q: string): (bs: Option<seq<byte>>)
    requires |q| == 4
  {
    if q[2] == '=' && q[3] == '=' then
      if IsSymbol(q[0]) && IsSymbol(q[1]) && Value(q[1]) % 16 == 0 then Some([(Value(q[0]) * 4 + Value(q[1]) / 16) as byte])
      else None
    else if q[3] == '=' then
      if IsSymbol(q[0]) && IsSymbol(q[1]) && IsSymbol(q[2]) && Value(q[2]) % 4 == 0 then
        Some([(Value(q[0]) * 4 + Value(q[1]) / 16) as byte,
              ((Value(q[1]) % 16) * 16 + Value(q[2]) / 4) as byte])
      else None
    else if IsSymbol(q[0]) && IsSymbol(q[1]) && IsSymbol(q[2]) && IsSymbol(q[3]) then
      Some(DecodeGroup(q[0], q[1], q[2], q[3]))
    else None
  }

  /** Decoding of a padded string; None for a length that is not a multiple
      of four, a character outside the alphabet, or padding before the last
      group. */
  function Decode(s: string): (bs: Option<seq<byte>>)
    decreases |s|
  {
    if |s| == 0 then Some([])
    else if |s| < 4 then None
    else if |s| == 4 then DecodeQuad(s)
    else if s[3] == '=' then None
    else match (DecodeQuad(s[..4]), Decode(s[4..]))
      case (Some(g), Some(rest)) => Some(g + rest)
      case _ => None
  }

  lemma GroupRoundTrip(b0: byte, b1: byte, b2: byte)
    ensures var g := EncodeGroup(b0, b1, b2);
      DecodeGroup(g[0], g[1], g[2], g[3]) == [b0, b1, b2]
  {
    var v0, v1 := b0 as int / 4, (b0 as int % 4) * 16 + b1 as int / 16;
    var v2, v3 := (b1 as int % 16) * 4 + b2 as int / 64, b2 as int % 64;
    ValueOfSymbol(v0); ValueOfSymbol(v1); ValueOfSymbol(v2); ValueOfSymbol(v3);
    assert v1 / 16 == b0 as int % 4 && v1 % 16 == b1 as int / 16;
    assert v2 / 4 == b1 as int % 16 && v2 % 4 == b2 as int / 64;
  }

  lemma OneRoundTrip(b0: byte)
    ensures DecodeQuad(EncodeOne(b0)) == Some([b0])
  {
    ValueOfSymbol(b0 as int / 4); ValueOfSymbol((b0 as int % 4) * 16);
  }

  lemma TwoRoundTrip(b0: byte, b1: byte)
    ensures DecodeQuad(EncodeTwo(b0, b1)) == Some([b0, b1])
  {
    var v1 := (b0 as int % 4) * 16 + b1 as int / 16;
    ValueOfSymbol(b0 as int / 4); ValueOfSymbol(v1); ValueOfSymbol((b1 as int % 16) * 4);
    assert v1 / 16 == b0 as int % 4 && v1 % 16 == b1 as int / 16;
  }

  lemma FullRoundTrip(b0: byte, b1: byte, b2: byte)
    ensures DecodeQuad(EncodeGroup(b0, b1, b2)) == Some([b0, b1, b2])
  {
    var g := EncodeGroup(b0, b1, b2);
    GroupRoundTrip(b0, b1, b2);
    assert g[3] != '=';
  }

  /** Decoding a full group followed by a decodable rest. */
  lemma DecodeCons(g: string, rest: string, bs: seq<byte>, tail: seq<byte>)
    requires |g| == 4 && g[3] != '=' && DecodeQuad(g) == Some(bs)
    requires |rest| > 0 && Decode(rest) == Some(tail)
    ensures Decode(g + rest) == Some(bs + tail)
  {
    var s := g + rest;
    assert s[4..] == rest && s[..4] == g && s[3] == g[3];
  }

  lemma SplitThree(bs: seq<byte>)
    requires |bs| >= 3
    ensures [bs[0], bs[1], bs[2]] + bs[3..] == bs
  {
    assert bs == bs[..3] + bs[3..];
  }

  /** Decoding undoes encoding, so the token carries all 256 bits drawn. */
  lemma {:induction false} RoundTrip(bs: seq<byte>)
    ensures Decode(Encode(bs)) == Some(bs)
  {
    if |bs| == 0 {
    } else if |bs| == 1 {
      OneRoundTrip(bs[0]);
      assert [bs[0]] == bs;
    } else if |bs| == 2 {
      TwoRoundTrip(bs[0], bs[1]);
      assert [bs[0], bs[1]] == bs;
    } else if |bs| == 3 {
      FullRoundTrip(bs[0], bs[1], bs[2]);
      assert Encode(bs) == EncodeGroup(bs[0], bs[1], bs[2]) + [];
      assert [bs[0], bs[1], bs[2]] == bs;
    } else {
      RoundTrip(bs[3..]);
      FullRoundTrip(bs[0], bs[1], bs[2]);
      assert Encode(bs) == EncodeGroup(bs[0], bs[1], bs[2]) + Encode(bs[3..]);
      DecodeCons(EncodeGroup(bs[0], bs[1], bs[2]), Encode(bs[3..]), [bs[0], bs[1], bs[2]], bs[3..]);
      SplitThree(bs);
    }
  }

  /** Only the last `(3 - n % 3) % 3` characters of an encoding of `n` bytes
      are padding; every other one is a symbol of the alphabet. */
  lemma {:induction false} EncodeShape(bs: seq<byte>, i: nat)
    requires i < |Encode(bs)|
    ensures var pad := (3 - |bs| % 3) % 3;
      (i < |Encode(bs)| - pad ==> IsSymbol(Encode(bs)[i])) &&
      (i >= |Encode(bs)| - pad ==> Encode(bs)[i] == '=')
  {
    if |bs| > 2 {
      var g, rest := EncodeGroup(bs[0], bs[1], bs[2]), Encode(bs[3..]);
      assert Encode(bs) == g + rest;
      assert (3 - |bs| % 3) % 3 == (3 - |bs[3..]| % 3) % 3;
      if i >= 4 {
        EncodeShape(bs[3..], i - 4);
      }
    }
  }

  /** Every character before the padding is a symbol of the alphabet. */
  lemma SymbolsBeforePadding(bs: seq<byte>)
    ensures forall i :: 0 <= i < |Encode(bs)| - (3 - |bs| % 3) % 3 ==> IsSymbol(Encode(bs)[i])
  {
    forall i | 0 <= i < |Encode(bs)| - (3 - |bs| % 3) % 3 ensures IsSymbol(Encode(bs)[i]) {
      EncodeShape(bs, i);
    }
  }

  /** The shape of the encoding of 32 bytes. */
  lemma {:induction false} ThirtyTwoBytes(bs: seq<byte>)
    requires |bs| == 32
    ensures |Encode(bs)| == 44 && Encode(bs)[43] == '='
    ensures forall i :: 0 <= i < 43 ==> IsSymbol(Encode(bs)[i])
  {
    EncodeShape(bs, 43);
    SymbolsBeforePadding(bs);
  }

  /** `randToken`: the 32 random bytes come in as a parameter. The token is
      44 characters long: 43 symbols of the alphabet and one '=' of padding,
      and it decodes back to the bytes drawn. */
  function RandToken(random: seq<byte>): (t: string)
    requires |random| == 32
    ensures |t| == 44 && t[43] == '='
    ensures forall i :: 0 <= i < 43 ==> IsSymbol(t[i])
    ensures Decode(t) == Some(random)
  {
    ThirtyTwoBytes(random);
    RoundTrip(random);
    Encode(random)
  }
}
