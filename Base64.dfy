/**
 * Base64 as section 4 of RFC 4648 defines it (the alphabet of its Table 1,
 * with `=` padding), which is what Python's `base64.b64encode` produces, and
 * the strict decoder that inverts it.
 */
module Base64 {
  import opened Wrappers

  /** A 6-bit group, the value one base64 character carries. */
  type Sextet = k: int | 0 <= k < 64

  /** Table 1 of RFC 4648: A-Z, a-z, 0-9, '+', '/'. */
  function CharOf(k: Sextet): (c: char)
    ensures IsAlphabet(c)
  {
    if k < 26 then ('A' as int + k) as char
    else if k < 52 then ('a' as int + k - 26) as char
    else if k < 62 then ('0' as int + k - 52) as char
    else if k == 62 then '+'
    else '/'
  }

  predicate IsAlphabet(c: char)
  {
    'A' <= c <= 'Z' || 'a' <= c <= 'z' || '0' <= c <= '9' || c == '+' || c == '/'
  }

  /** The value of a character of the alphabet. */
  function SextetOf(c: char): (k: Sextet)
    requires IsAlphabet(c)
    ensures CharOf(k) == c
  {
    if 'A' <= c <= 'Z' then c as int - 'A' as int
    else if 'a' <= c <= 'z' then c as int - 'a' as int + 26
    else if '0' <= c <= '9' then c as int - '0' as int + 52
    else if c == '+' then 62
    else 63
  }

  lemma SextetOfCharOf(k: Sextet)
    ensures SextetOf(CharOf(k)) == k
  {
  }

  /** How many `=` close the encoding of n bytes. */
  function Padding(n: nat): nat
  {
    (3 - n % 3) % 3
  }

  /** Three bytes, 24 bits, as four characters. */
  function EncodeGroup(b0: Byte, b1: Byte, b2: Byte): string
  {
    [CharOf(b0 / 4), CharOf(b0 % 4 * 16 + b1 / 16), CharOf(b1 % 16 * 4 + b2 / 64), CharOf(b2 % 64)]
  }

  /** `base64.b64encode(b).decode()`. */
  function Encode(b: seq<Byte>): (s: string)
    ensures |s| == 4 * ((|b| + 2) / 3)
    decreases |b|
  {
    if |b| == 0 then []
    else if |b| == 1 then [CharOf(b[0] / 4), CharOf(b[0] % 4 * 16), '=', '=']
    else if |b| == 2 then [CharOf(b[0] / 4), CharOf(b[0] % 4 * 16 + b[1] / 16), CharOf(b[1] % 16 * 4), '=']
    else
      assert (|b| + 2) / 3 == (|b| - 1) / 3 + 1;
      EncodeGroup(b[0], b[1], b[2]) + Encode(b[3..])
  }

  /**
   * The encoding uses only the alphabet and `=`, and the `=` are exactly its
   * last Padding(|b|) characters: none for a whole number of groups, `==`
   * after one leftover byte, `=` after two.
   */
  lemma {:induction false} EncodeAlphabet(b: seq<Byte>)
    ensures var s := Encode(b);
      && (forall i | 0 <= i < |s| :: s[i] == '=' || IsAlphabet(s[i]))
      && (forall i | 0 <= i < |s| :: s[i] == '=' <==> i >= |s| - Padding(|b|))
    decreases |b|
  {
    if |b| >= 3 {
      var q := EncodeGroup(b[0], b[1], b[2]);
      var e := Encode(b[3..]);
      EncodeAlphabet(b[3..]);
      EncodeFirstGroup(b);
      PaddingStep(|b|);
      assert e != [] ==> |e| >= 4;
      forall i | 0 <= i < |q + e|
        ensures (q + e)[i] == '=' || IsAlphabet((q + e)[i])
        ensures (q + e)[i] == '=' <==> i >= |q + e| - Padding(|b|)
      {
        if i >= 4 {
          assert (q + e)[i] == e[i - 4];
        } else {
          assert (q + e)[i] == q[i];
          assert IsAlphabet(q[i]) && q[i] != '=';
        }
      }
    }
  }

  lemma PaddingStep(n: nat)
    requires n >= 3
    ensures Padding(n) == Padding(n - 3)
  {
  }

  /** Four characters of the alphabet as three bytes. */
  function DecodeGroup(q: string): Option<seq<Byte>>
    requires |q| == 4
  {
    if IsAlphabet(q[0]) && IsAlphabet(q[1]) && IsAlphabet(q[2]) && IsAlphabet(q[3]) then
      var c0: int, c1: int, c2: int, c3: int := SextetOf(q[0]), SextetOf(q[1]), SextetOf(q[2]), SextetOf(q[3]);
      Some([c0 * 4 + c1 / 16, c1 % 16 * 16 + c2 / 4, c2 % 4 * 64 + c3])
    else None
  }

  /** The closing four characters, where `==` stands for one byte and `=` for two; the unused bits must be zero. */
  function DecodeFinal(q: string): Option<seq<Byte>>
    requires |q| == 4
  {
    if q[2] == '=' && q[3] == '=' then
      if IsAlphabet(q[0]) && IsAlphabet(q[1]) && SextetOf(q[1]) % 16 == 0 then
        Some([SextetOf(q[0]) * 4 + SextetOf(q[1]) / 16])
      else None
    else if q[3] == '=' then
      if IsAlphabet(q[0]) && IsAlphabet(q[1]) && IsAlphabet(q[2]) && SextetOf(q[2]) % 4 == 0 then
        var c0: int, c1: int, c2: int := SextetOf(q[0]), SextetOf(q[1]), SextetOf(q[2]);
        Some([c0 * 4 + c1 / 16, c1 % 16 * 16 + c2 / 4])
      else None
    else DecodeGroup(q)
  }

  /** Strict decoding: None for text that is not the encoding of any byte string. */
  function Decode(s: string): (r: Option<seq<Byte>>)
    ensures r.Some? && s != [] ==> r.value != []
    decreases |s|
  {
    if s == [] then Some([])
    else if |s| < 4 then None
    else if |s| == 4 then DecodeFinal(s)
    else match DecodeGroup(s[..4])
      case None => None
      case Some(g) =>
        match Decode(s[4..])
        case None => None
        case Some(rest) => Some(g + rest)
  }

  /** Splitting three bytes into four sextets and joining them again restores the bytes. */
  lemma BytesFromSextets(b0: Byte, b1: Byte, b2: Byte)
    ensures b0 / 4 * 4 + (b0 % 4 * 16 + b1 / 16) / 16 == b0
    ensures (b0 % 4 * 16 + b1 / 16) % 16 * 16 + (b1 % 16 * 4 + b2 / 64) / 4 == b1
    ensures (b1 % 16 * 4 + b2 / 64) % 4 * 64 + b2 % 64 == b2
  {
  }

  /** Joining four sextets into three bytes and splitting them again restores the sextets. */
  lemma SextetsFromBytes(c0: Sextet, c1: Sextet, c2: Sextet, c3: Sextet)
    ensures (c0 * 4 + c1 / 16) / 4 == c0
    ensures (c0 * 4 + c1 / 16) % 4 * 16 + (c1 % 16 * 16 + c2 / 4) / 16 == c1
    ensures (c1 % 16 * 16 + c2 / 4) % 16 * 4 + (c2 % 4 * 64 + c3) / 64 == c2
    ensures (c2 % 4 * 64 + c3) % 64 == c3
  {
  }

  lemma GroupRoundTrip(b0: Byte, b1: Byte, b2: Byte)
    ensures DecodeGroup(EncodeGroup(b0, b1, b2)) == Some([b0, b1, b2])
  {
    var k0, k1, k2, k3 := b0 / 4, b0 % 4 * 16 + b1 / 16, b1 % 16 * 4 + b2 / 64, b2 % 64;
    var q := EncodeGroup(b0, b1, b2);
    SextetOfCharOf(k0);
    SextetOfCharOf(k1);
    SextetOfCharOf(k2);
    SextetOfCharOf(k3);
    assert SextetOf(q[0]) == k0 && SextetOf(q[1]) == k1 && SextetOf(q[2]) == k2 && SextetOf(q[3]) == k3;
    BytesFromSextets(b0, b1, b2);
  }

  lemma SingleRoundTrip(b0: Byte)
    ensures DecodeFinal(Encode([b0])) == Some([b0])
  {
    var q := Encode([b0]);
    SextetOfCharOf(b0 / 4);
    SextetOfCharOf(b0 % 4 * 16);
    assert SextetOf(q[0]) == b0 / 4 && SextetOf(q[1]) == b0 % 4 * 16;
    BytesFromSextets(b0, 0, 0);
  }

  lemma PairRoundTrip(b0: Byte, b1: Byte)
    ensures DecodeFinal(Encode([b0, b1])) == Some([b0, b1])
  {
    var q := Encode([b0, b1]);
    SextetOfCharOf(b0 / 4);
    SextetOfCharOf(b0 % 4 * 16 + b1 / 16);
    SextetOfCharOf(b1 % 16 * 4);
    assert SextetOf(q[0]) == b0 / 4 && SextetOf(q[1]) == b0 % 4 * 16 + b1 / 16 && SextetOf(q[2]) == b1 % 16 * 4;
    assert q[2] != '=' && q[3] == '=';
    BytesFromSextets(b0, b1, 0);
  }

  /** A full group in front of a text that decodes: the whole decodes to the group's bytes and then the rest. */
  lemma DecodeGroupThen(q: string, e: string, g: seq<Byte>, rest: seq<Byte>)
    requires |q| == 4 && q[3] != '=' && DecodeGroup(q) == Some(g)
    requires Decode(e) == Some(rest)
    ensures Decode(q + e) == Some(g + rest)
  {
    if e == [] {
      assert q + e == q;
      assert rest == [];
      assert g + rest == g;
    } else {
      assert (q + e)[..4] == q;
      assert (q + e)[4..] == e;
    }
  }

  /** The encoding of three or more bytes is the first group's encoding followed by the rest's. */
  lemma EncodeFirstGroup(b: seq<Byte>)
    requires |b| >= 3
    ensures Encode(b) == EncodeGroup(b[0], b[1], b[2]) + Encode(b[3..])
  {
  }

  /** One full group in front of a tail that decodes: the whole decodes. */
  lemma GroupThenRest(b: seq<Byte>, rest: seq<Byte>)
    requires |b| >= 3 && rest == b[3..]
    requires Decode(Encode(rest)) == Some(rest)
    ensures Decode(Encode(b)) == Some(b)
  {
    var g := [b[0], b[1], b[2]];
    var q, e := EncodeGroup(b[0], b[1], b[2]), Encode(rest);
    assert Encode(b) == q + e by {
      EncodeFirstGroup(b);
    }
    assert DecodeGroup(q) == Some(g) by {
      GroupRoundTrip(b[0], b[1], b[2]);
    }
    assert Decode(q + e) == Some(g + rest) by {
      DecodeGroupThen(q, e, g, rest);
    }
    SplitThree(b);
  }

  lemma SplitThree(b: seq<Byte>)
    requires |b| >= 3
    ensures b == [b[0], b[1], b[2]] + b[3..]
  {
  }

  /** Decoding the encoding of a byte string gives the byte string back. */
  lemma {:induction false} DecodeEncode(b: seq<Byte>)
    ensures Decode(Encode(b)) == Some(b)
    decreases |b|
  {
    if |b| == 1 {
      SingleRoundTrip(b[0]);
      assert b == [b[0]];
    } else if |b| == 2 {
      PairRoundTrip(b[0], b[1]);
      assert b == [b[0], b[1]];
    } else if |b| >= 3 {
      DecodeEncode(b[3..]);
      GroupThenRest(b, b[3..]);
    }
  }

  /** A group the decoder accepts is the encoding of the three bytes it decodes to. */
  lemma GroupBack(q: string)
    requires |q| == 4 && DecodeGroup(q).Some?
    ensures |DecodeGroup(q).value| == 3
    ensures var g := DecodeGroup(q).value; EncodeGroup(g[0], g[1], g[2]) == q
  {
    var c0, c1, c2, c3 := SextetOf(q[0]), SextetOf(q[1]), SextetOf(q[2]), SextetOf(q[3]);
    SextetsFromBytes(c0, c1, c2, c3);
    var g := DecodeGroup(q).value;
    assert g[0] / 4 == c0;
    assert g[0] % 4 * 16 + g[1] / 16 == c1;
    assert g[1] % 16 * 4 + g[2] / 64 == c2;
    assert g[2] % 64 == c3;
  }

  /** A closing group the decoder accepts is the encoding of the bytes it decodes to. */
  lemma FinalBack(q: string, b: seq<Byte>)
    requires |q| == 4 && DecodeFinal(q) == Some(b)
    ensures Encode(b) == q
  {
    if q[2] == '=' && q[3] == '=' {
      var c0, c1 := SextetOf(q[0]), SextetOf(q[1]);
      SextetsFromBytes(c0, c1, 0, 0);
      assert b[0] / 4 == c0 && b[0] % 4 * 16 == c1;
    } else if q[3] == '=' {
      var c0, c1, c2 := SextetOf(q[0]), SextetOf(q[1]), SextetOf(q[2]);
      SextetsFromBytes(c0, c1, c2, 0);
      assert b[0] / 4 == c0 && b[0] % 4 * 16 + b[1] / 16 == c1 && b[1] % 16 * 4 == c2;
    } else {
      GroupBack(q);
      assert Encode(b) == EncodeGroup(b[0], b[1], b[2]) + Encode(b[3..]);
      assert b[3..] == [];
    }
  }

  /** Text that decodes is the encoding of what it decodes to: the decoder accepts nothing else. */
  lemma {:induction false} EncodeDecode(s: string, b: seq<Byte>)
    requires Decode(s) == Some(b)
    ensures Encode(b) == s
    decreases |s|
  {
    if |s| == 4 {
      FinalBack(s, b);
    } else if |s| > 4 {
      var q := s[..4];
      var g := DecodeGroup(q).value;
      var rest := Decode(s[4..]).value;
      EncodeDecode(s[4..], rest);
      GroupBack(q);
      assert b == g + rest;
      assert b[..3] == g && b[3..] == rest;
      assert Encode(b) == EncodeGroup(b[0], b[1], b[2]) + Encode(rest);
      assert s == q + s[4..];
    }
  }

  /** Decoding and encoding are inverse: a text decodes to b exactly when it is the encoding of b. */
  lemma DecodeIffEncode(s: string, b: seq<Byte>)
    ensures Decode(s) == Some(b) <==> Encode(b) == s
  {
    if Decode(s) == Some(b) {
      EncodeDecode(s, b);
    }
    if Encode(b) == s {
      DecodeEncode(b);
    }
  }
}
