/** The base64 check on image attachments: only the one encoding that section 3.5 of
    RFC 4648 allows for some nonempty data, in the alphabet of its section 4. */
module Base64 {

  type Byte = b: nat | b < 256

  // ------------------------------------------------------------------
  // The encoding
  // ------------------------------------------------------------------

  function Symbol(n: nat): char
    requires n < 64
  {
    if n < 26 then 'A' + n as char
    else if n < 52 then 'a' + (n - 26) as char
    else if n < 62 then '0' + (n - 52) as char
    else if n == 62 then '+'
    else '/'
  }

  function Index(c: char): int {
    if 'A' <= c <= 'Z' then c as int - 'A' as int
    else if 'a' <= c <= 'z' then c as int - 'a' as int + 26
    else if '0' <= c <= '9' then c as int - '0' as int + 52
    else if c == '+' then 62
    else if c == '/' then 63
    else -1
  }

  lemma IndexOfSymbol(n: nat)
    requires n < 64
    ensures Index(Symbol(n)) == n
  {
  }

  lemma SymbolOfIndex(c: char)
    requires Index(c) >= 0
    ensures Index(c) < 64 && Symbol(Index(c)) == c && c != '='
  {
  }

  /** The symbols are those of the standard alphabet, in its order: A to Z, a to z, 0 to
      9, plus and slash. */
  lemma SymbolsOfTheAlphabet()
    ensures Symbol(0) == 'A' && Symbol(25) == 'Z' && Symbol(26) == 'a' && Symbol(51) == 'z'
    ensures Symbol(52) == '0' && Symbol(61) == '9' && Symbol(62) == '+' && Symbol(63) == '/'
    ensures forall n: nat | n < 61 && n != 25 && n != 51 :: Symbol(n + 1) as int == Symbol(n) as int + 1
  {
  }

  /** Three bytes as four symbols; one or two last bytes with zero bits and padding. */
  function Quad(a: Byte, b: Byte, c: Byte): string {
    [Symbol(a / 4), Symbol(a % 4 * 16 + b / 16), Symbol(b % 16 * 4 + c / 64), Symbol(c % 64)]
  }

  function Encode(bytes: seq<Byte>): string {
    if bytes == [] then ""
    else if |bytes| == 1 then [Symbol(bytes[0] / 4), Symbol(bytes[0] % 4 * 16), '=', '=']
    else if |bytes| == 2 then
      [Symbol(bytes[0] / 4), Symbol(bytes[0] % 4 * 16 + bytes[1] / 16), Symbol(bytes[1] % 16 * 4), '=']
    else Quad(bytes[0], bytes[1], bytes[2]) + Encode(bytes[3..])
  }

  /** The strings that are an encoding of some nonempty data. */
  ghost predicate IsEncoding(value: string) {
    exists bytes: seq<Byte> :: bytes != [] && Encode(bytes) == value
  }

  // ------------------------------------------------------------------
  // The decoding
  // ------------------------------------------------------------------

  /** The bytes of four symbols; the fourth and third may be padding. */
  function Bytes(a: int, b: int, c: int, d: int): (r: (nat, nat, nat))
    requires 0 <= a < 64 && 0 <= b < 64 && 0 <= c < 64 && 0 <= d < 64
    ensures r.0 < 256 && r.1 < 256 && r.2 < 256
  {
    (a * 4 + b / 16, b % 16 * 16 + c / 4, c % 4 * 64 + d)
  }

  function PaddingOf(value: string): nat {
    if |value| < 2 || value[|value| - 1] != '=' then 0
    else if value[|value| - 2] != '=' then 1
    else 2
  }

  /** What the check looks at: symbols, then at most two '=', and zero bits before them. */
  predicate Shaped(value: string) {
    && value != "" && |value| % 4 == 0
    && (forall i :: 0 <= i < |value| - PaddingOf(value) ==> Index(value[i]) >= 0)
    && (PaddingOf(value) == 2 ==> Index(value[|value| - 3]) % 16 == 0)
    && (PaddingOf(value) == 1 ==> Index(value[|value| - 2]) % 4 == 0)
  }

  lemma SymbolsFromTheFront(value: string, n: nat)
    requires 4 <= n <= |value|
    ensures (forall i :: 0 <= i < n ==> Index(value[i]) >= 0) <==>
            (forall i :: 0 <= i < 4 ==> Index(value[i]) >= 0) && (forall i :: 0 <= i < n - 4 ==> Index(value[4..][i]) >= 0)
  {
    hide Index;
    if forall i :: 0 <= i < n - 4 ==> Index(value[4..][i]) >= 0 {
      forall i | 4 <= i < n ensures Index(value[i]) >= 0 {
        assert value[4..][i - 4] == value[i];
      }
    }
  }

  lemma ShapedFromTheFront(value: string)
    requires |value| > 4
    ensures Shaped(value) <==>
            && (forall i :: 0 <= i < 4 ==> Index(value[i]) >= 0)
            && Shaped(value[4..])
  {
    hide Index;
    var rest := value[4..];
    if |value| % 4 == 0 {
      var n := |rest|;
      assert n >= 4 && rest[n - 1] == value[|value| - 1] && rest[n - 2] == value[|value| - 2] && rest[n - 3] == value[|value| - 3];
      assert PaddingOf(rest) == PaddingOf(value);
      SymbolsFromTheFront(value, |value| - PaddingOf(value));
    }
  }

  function Decode(value: string): (bytes: seq<Byte>)
    requires Shaped(value)
    ensures bytes != []
  {
    if |value| > 4 then
      ShapedFromTheFront(value);
      SymbolOfIndex(value[0]); SymbolOfIndex(value[1]); SymbolOfIndex(value[2]); SymbolOfIndex(value[3]);
      var b := Bytes(Index(value[0]), Index(value[1]), Index(value[2]), Index(value[3]));
      [b.0, b.1, b.2] + Decode(value[4..])
    else
      SymbolOfIndex(value[0]); SymbolOfIndex(value[1]);
      if PaddingOf(value) == 2 then
        [Bytes(Index(value[0]), Index(value[1]), 0, 0).0]
      else
        SymbolOfIndex(value[2]);
        if PaddingOf(value) == 1 then
          var b := Bytes(Index(value[0]), Index(value[1]), Index(value[2]), 0);
          [b.0, b.1]
        else
          SymbolOfIndex(value[3]);
          var b := Bytes(Index(value[0]), Index(value[1]), Index(value[2]), Index(value[3]));
          [b.0, b.1, b.2]
  }

  // ------------------------------------------------------------------
  // Round trips
  // ------------------------------------------------------------------

  lemma SextetsOfBytes(a: int, b: int, c: int, d: int)
    requires 0 <= a < 64 && 0 <= b < 64 && 0 <= c < 64 && 0 <= d < 64
    ensures var r := Bytes(a, b, c, d);
            r.0 / 4 == a && r.0 % 4 * 16 + r.1 / 16 == b && r.1 % 16 * 4 + r.2 / 64 == c && r.2 % 64 == d
  {
    var high, low := b / 16, b % 16;
    assert b == high * 16 + low;
    var up, down := c / 4, c % 4;
    assert c == up * 4 + down;
    assert (a * 4 + high) / 4 == a && (a * 4 + high) % 4 == high;
    assert (low * 16 + up) / 16 == low && (low * 16 + up) % 16 == up;
    assert (down * 64 + d) / 64 == down && (down * 64 + d) % 64 == d;
  }

  lemma BytesOfQuad(a: Byte, b: Byte, c: Byte)
    ensures Bytes(a / 4, a % 4 * 16 + b / 16, b % 16 * 4 + c / 64, c % 64) == (a, b, c)
  {
    var high, low := b / 16, b % 16;
    assert b == high * 16 + low;
    var up, down := c / 64, c % 64;
    assert c == up * 64 + down;
    assert (a % 4 * 16 + high) / 16 == a % 4 && (a % 4 * 16 + high) % 16 == high;
    assert (low * 4 + up) / 4 == low && (low * 4 + up) % 4 == up;
  }

  /** The symbols of four sextets give back the four characters. */
  lemma {:induction false} QuadOfIndexes(value: string)
    requires |value| == 4 && forall i :: 0 <= i < 4 ==> Index(value[i]) >= 0
    ensures Index(value[0]) < 64 && Index(value[1]) < 64 && Index(value[2]) < 64 && Index(value[3]) < 64
    ensures var b := Bytes(Index(value[0]), Index(value[1]), Index(value[2]), Index(value[3]));
            Quad(b.0, b.1, b.2) == value
  {
    SymbolOfIndex(value[0]);
    SymbolOfIndex(value[1]);
    SymbolOfIndex(value[2]);
    SymbolOfIndex(value[3]);
    hide Index, Symbol;
    SextetsOfBytes(Index(value[0]), Index(value[1]), Index(value[2]), Index(value[3]));
    assert value == [value[0], value[1], value[2], value[3]];
  }

  lemma {:induction false} LastWithTwoPads(value: string)
    requires Shaped(value) && |value| == 4 && PaddingOf(value) == 2
    ensures Encode(Decode(value)) == value
  {
    SymbolOfIndex(value[0]);
    SymbolOfIndex(value[1]);
    hide Index, Symbol;
    SextetsOfBytes(Index(value[0]), Index(value[1]), 0, 0);
    assert value == [value[0], value[1], '=', '='];
  }

  lemma {:induction false} LastWithOnePad(value: string)
    requires Shaped(value) && |value| == 4 && PaddingOf(value) == 1
    ensures Encode(Decode(value)) == value
  {
    SymbolOfIndex(value[0]);
    SymbolOfIndex(value[1]);
    SymbolOfIndex(value[2]);
    hide Index, Symbol;
    SextetsOfBytes(Index(value[0]), Index(value[1]), Index(value[2]), 0);
    assert value == [value[0], value[1], value[2], '='];
  }

  lemma {:induction false} LastWithoutPad(value: string)
    requires Shaped(value) && |value| == 4 && PaddingOf(value) == 0
    ensures Encode(Decode(value)) == value
  {
    QuadOfIndexes(value);
    hide Index, Symbol, Quad;
    assert Decode(value)[3..] == [];
  }

  /** Encoding what was decoded gives the same string: an accepted string is an encoding. */
  lemma {:induction false} DecodeThenEncode(value: string)
    requires Shaped(value)
    ensures Encode(Decode(value)) == value
  {
    if |value| > 4 {
      ShapedFromTheFront(value);
      DecodeThenEncode(value[4..]);
      assert forall i :: 0 <= i < 4 ==> value[..4][i] == value[i];
      QuadOfIndexes(value[..4]);
      hide Index, Symbol, Quad, Shaped, Bytes;
      assert Decode(value)[3..] == Decode(value[4..]);
      assert value == value[..4] + value[4..];
    } else if PaddingOf(value) == 2 {
      LastWithTwoPads(value);
    } else if PaddingOf(value) == 1 {
      LastWithOnePad(value);
    } else {
      LastWithoutPad(value);
    }
  }

  lemma QuadDecodes(a: Byte, b: Byte, c: Byte)
    ensures var q := Quad(a, b, c);
            && |q| == 4 && (forall i :: 0 <= i < 4 ==> Index(q[i]) >= 0 && q[i] != '=')
            && Index(q[0]) == a / 4 && Index(q[1]) == a % 4 * 16 + b / 16
            && Index(q[2]) == b % 16 * 4 + c / 64 && Index(q[3]) == c % 64
  {
    IndexOfSymbol(a / 4);
    IndexOfSymbol(a % 4 * 16 + b / 16);
    IndexOfSymbol(b % 16 * 4 + c / 64);
    IndexOfSymbol(c % 64);
    SymbolOfIndex(Symbol(a / 4));
    SymbolOfIndex(Symbol(a % 4 * 16 + b / 16));
    SymbolOfIndex(Symbol(b % 16 * 4 + c / 64));
    SymbolOfIndex(Symbol(c % 64));
    hide Index, Symbol;
  }

  lemma OneByte(a: Byte)
    ensures Shaped(Encode([a])) && Decode(Encode([a])) == [a]
  {
    QuadDecodes(a, 0, 0);
    BytesOfQuad(a, 0, 0);
    hide Symbol;
    assert Index('=') == -1;
    hide Index;
  }

  lemma {:induction false} TwoBytes(a: Byte, b: Byte)
    ensures Shaped(Encode([a, b])) && Decode(Encode([a, b])) == [a, b]
  {
    QuadDecodes(a, b, 0);
    BytesOfQuad(a, b, 0);
    hide Index, Symbol;
  }

  lemma {:induction false} ThreeBytes(a: Byte, b: Byte, c: Byte)
    ensures Shaped(Encode([a, b, c])) && Decode(Encode([a, b, c])) == [a, b, c]
  {
    QuadDecodes(a, b, c);
    BytesOfQuad(a, b, c);
    hide Index, Symbol, Quad, Bytes;
    assert [a, b, c][3..] == [];
    assert Encode([a, b, c]) == Quad(a, b, c);
  }

  lemma InFront(quad: string, rest: string)
    requires |quad| == 4 && (forall i :: 0 <= i < 4 ==> Index(quad[i]) >= 0) && Shaped(rest)
    ensures Shaped(quad + rest) && forall i :: 0 <= i < 4 ==> Index(quad[i]) < 64
    ensures var b := Bytes(Index(quad[0]), Index(quad[1]), Index(quad[2]), Index(quad[3]));
            Decode(quad + rest) == [b.0, b.1, b.2] + Decode(rest)
  {
    forall i | 0 <= i < 4 ensures Index(quad[i]) < 64 {
      SymbolOfIndex(quad[i]);
    }
    hide Index, Symbol, Bytes;
    var value := quad + rest;
    assert value[4..] == rest && forall i :: 0 <= i < 4 ==> value[i] == quad[i];
    ShapedFromTheFront(value);
    hide Shaped;
  }

  /** Every encoding of nonempty data is accepted, and decodes to that data. */
  lemma {:induction false} EncodeThenDecode(bytes: seq<Byte>)
    requires bytes != []
    ensures Shaped(Encode(bytes)) && Decode(Encode(bytes)) == bytes
  {
    hide Index, Symbol, Quad, Bytes, Shaped, Decode;
    if |bytes| > 3 {
      EncodeThenDecode(bytes[3..]);
      QuadDecodes(bytes[0], bytes[1], bytes[2]);
      BytesOfQuad(bytes[0], bytes[1], bytes[2]);
      InFront(Quad(bytes[0], bytes[1], bytes[2]), Encode(bytes[3..]));
      assert bytes == [bytes[0], bytes[1], bytes[2]] + bytes[3..];
    } else if |bytes| == 3 {
      ThreeBytes(bytes[0], bytes[1], bytes[2]);
      assert bytes == [bytes[0], bytes[1], bytes[2]];
    } else if |bytes| == 2 {
      TwoBytes(bytes[0], bytes[1]);
      assert bytes == [bytes[0], bytes[1]];
    } else {
      OneByte(bytes[0]);
      assert bytes == [bytes[0]];
    }
  }

  lemma ShapedIsEncoding(value: string)
    ensures Shaped(value) <==> IsEncoding(value)
  {
    if Shaped(value) {
      DecodeThenEncode(value);
    }
    forall bytes: seq<Byte> | bytes != [] && Encode(bytes) == value
      ensures Shaped(value)
    {
      EncodeThenDecode(bytes);
    }
  }

  /** Accepts exactly the encodings of nonempty data. */
  method CanonicalBase64(value: string) returns (ok: bool)
    ensures ok <==> IsEncoding(value)
  {
    ShapedIsEncoding(value);
    if value == "" || |value| % 4 != 0 {
      return false;
    }
    var padding := 0;
    if value[|value| - 1] == '=' {
      padding := padding + 1;
      if value[|value| - 2] == '=' {
        padding := padding + 1;
      }
    }
    for index := 0 to |value| - padding
      invariant forall i :: 0 <= i < index ==> Index(value[i]) >= 0
    {
      if Index(value[index]) < 0 {
        return false;
      }
    }
    for index := |value| - padding to |value|
      invariant padding == PaddingOf(value)
    {
      if value[index] != '=' {
        return false;
      }
    }
    if padding == 2 {
      return Index(value[|value| - 3]) % 16 == 0;
    }
    if padding == 1 {
      return Index(value[|value| - 2]) % 4 == 0;
    }
    return true;
  }
}
