/** The base 64 encoding of section 4 of RFC 4648: the standard alphabet
    `A-Z a-z 0-9 + /`, with `=` padding the final quantum to four characters.
    The worker encodes the generated audio with it and the client decodes it
    again, so the two directions must be exact inverses. */
module Base64 {
  import opened Wrappers

  /** A six-bit group: the index of one alphabet character. */
  type Sextet = x: int | 0 <= x < 64

  const Padding: char := '='

  /** The character that encodes a six-bit group (table 1 of RFC 4648). */
  function Symbol(i: Sextet): (c: char)
    ensures c != Padding
  {
    if i < 26 then ('A' as int + i) as char
    else if i < 52 then ('a' as int + (i - 26)) as char
    else if i < 62 then ('0' as int + (i - 52)) as char
    else if i == 62 then '+'
    else '/'
  }

  /** The six-bit group a character encodes, or `None` for a character
      outside the alphabet (the padding character included). */
  function IndexOf(c: char): (r: Option<Sextet>)
    ensures c == Padding ==> r == None
  {
    if 'A' <= c <= 'Z' then Some(c as int - 'A' as int)
    else if 'a' <= c <= 'z' then Some(c as int - 'a' as int + 26)
    else if '0' <= c <= '9' then Some(c as int - '0' as int + 52)
    else if c == '+' then Some(62)
    else if c == '/' then Some(63)
    else None
  }

  /** Distinct groups get distinct characters: the alphabet is a bijection. */
  lemma SymbolInverse(i: Sextet)
    ensures IndexOf(Symbol(i)) == Some(i)
  {
  }

  /** Every alphabet character is the symbol of its index. */
  lemma IndexInverse(c: char)
    ensures IndexOf(c).Some? ==> Symbol(IndexOf(c).value) == c
  {
  }

  lemma QuantumSymbols(q: string)
    requires |q| == 4
    ensures forall k :: 0 <= k < 4 && IndexOf(q[k]).Some? ==> Symbol(IndexOf(q[k]).value) == q[k]
  {
    IndexInverse(q[0]);
    IndexInverse(q[1]);
    IndexInverse(q[2]);
    IndexInverse(q[3]);
  }

  /** The byte arithmetic of encoding undoes that of decoding, for a full
      quantum `w x y z`. */
  lemma SextetsRoundTrip(w: Sextet, x: Sextet, y: Sextet, z: Sextet)
    ensures var a, b, c := w * 4 + x / 16, (x % 16) * 16 + y / 4, (y % 4) * 64 + z;
      && 0 <= a < 256 && 0 <= b < 256 && 0 <= c < 256
      && a / 4 == w && (a % 4) * 16 + b / 16 == x
      && (b % 16) * 4 + c / 64 == y && c % 64 == z
  {
  }

  /** The byte arithmetic of decoding undoes that of encoding: three bytes
      split into four sextets and joined again. */
  lemma BytesRoundTrip(a: int, b: int, c: int)
    requires 0 <= a < 256 && 0 <= b < 256 && 0 <= c < 256
    ensures var w, x, y, z := a / 4, (a % 4) * 16 + b / 16, (b % 16) * 4 + c / 64, c % 64;
      && 0 <= w < 64 && 0 <= x < 64 && 0 <= y < 64 && 0 <= z < 64
      && w * 4 + x / 16 == a && (x % 16) * 16 + y / 4 == b && (y % 4) * 64 + z == c
  {
  }

  /** Three bytes as four characters, no padding. */
  function EncodeBlock(a: byte, b: byte, c: byte): seq<char> {
    [ Symbol(a as int / 4),
      Symbol((a as int % 4) * 16 + b as int / 16),
      Symbol((b as int % 16) * 4 + c as int / 64),
      Symbol(c as int % 64) ]
  }

  /** A final single byte: two characters and two padding characters. */
  function EncodeTail1(a: byte): seq<char> {
    [Symbol(a as int / 4), Symbol((a as int % 4) * 16), Padding, Padding]
  }

  /** Two final bytes: three characters and one padding character. */
  function EncodeTail2(a: byte, b: byte): seq<char> {
    [Symbol(a as int / 4), Symbol((a as int % 4) * 16 + b as int / 16), Symbol((b as int % 16) * 4), Padding]
  }

  /** `base64.b64encode(data).decode("utf-8")`. */
  function Encode(data: seq<byte>): (s: string)
    ensures |s| == 4 * ((|data| + 2) / 3)
    decreases |data|
  {
    if |data| == 0 then []
    else if |data| == 1 then EncodeTail1(data[0])
    else if |data| == 2 then EncodeTail2(data[0], data[1])
    else EncodeBlock(data[0], data[1], data[2]) + Encode(data[3..])
  }

  /** Decodes one four-character quantum. Padding is accepted only in the
      final quantum (`last`), and the bits the padding discards must be zero,
      so that every accepted text is the canonical encoding of its bytes. */
  function DecodeQuantum(q: string, last: bool): Option<seq<byte>>
    requires |q| == 4
  {
    var i0, i1 := IndexOf(q[0]), IndexOf(q[1]);
    if i0.None? || i1.None? then None
    else if q[2] == Padding && q[3] == Padding then
      if last && i1.value % 16 == 0 then Some([(i0.value as int * 4 + i1.value as int / 16) as byte])
      else None
    else
      var i2 := IndexOf(q[2]);
      if i2.None? then None
      else if q[3] == Padding then
        if last && i2.value % 4 == 0 then
          Some([(i0.value as int * 4 + i1.value as int / 16) as byte, ((i1.value as int % 16) * 16 + i2.value as int / 4) as byte])
        else None
      else
        var i3 := IndexOf(q[3]);
        if i3.None? then None
        else
          Some([ (i0.value as int * 4 + i1.value as int / 16) as byte,
                 ((i1.value as int % 16) * 16 + i2.value as int / 4) as byte,
                 ((i2.value as int % 4) * 64 + i3.value as int) as byte ])
  }

  /** Strict decoding: the input must consist of whole quanta, with padding
      only at the very end; `None` rejects the text. */
  function Decode(s: string): Option<seq<byte>>
    decreases |s|
  {
    if |s| == 0 then Some([])
    else if |s| < 4 then None
    else if |s| == 4 then DecodeQuantum(s, true)
    else
      var head := DecodeQuantum(s[..4], false);
      var rest := Decode(s[4..]);
      if head.None? || rest.None? then None
      else Some(head.value + rest.value)
  }

  /** One byte survives a round trip through a final quantum `w x = =`. */
  lemma Tail1RoundTrip(a: byte)
    ensures DecodeQuantum(EncodeTail1(a), true) == Some([a])
  {
    BytesRoundTrip(a as int, 0, 0);
    SymbolInverse(a as int / 4);
    SymbolInverse((a as int % 4) * 16);
  }

  /** Two bytes survive a round trip through a final quantum `w x y =`. */
  lemma Tail2RoundTrip(a: byte, b: byte)
    ensures DecodeQuantum(EncodeTail2(a, b), true) == Some([a, b])
  {
    BytesRoundTrip(a as int, b as int, 0);
    SymbolInverse(a as int / 4);
    SymbolInverse((a as int % 4) * 16 + b as int / 16);
    SymbolInverse((b as int % 16) * 4);
  }

  /** Three bytes survive a round trip through a full quantum, final or not. */
  lemma BlockRoundTrip(a: byte, b: byte, c: byte, last: bool)
    ensures DecodeQuantum(EncodeBlock(a, b, c), last) == Some([a, b, c])
  {
    BytesRoundTrip(a as int, b as int, c as int);
    SymbolInverse(a as int / 4);
    SymbolInverse((a as int % 4) * 16 + b as int / 16);
    SymbolInverse((b as int % 16) * 4 + c as int / 64);
    SymbolInverse(c as int % 64);
  }

  /** The single quantum that one to three bytes encode to. */
  lemma EncodeShort(d: seq<byte>)
    requires 1 <= |d| <= 3
    ensures |d| == 1 ==> Encode(d) == EncodeTail1(d[0]) && d == [d[0]]
    ensures |d| == 2 ==> Encode(d) == EncodeTail2(d[0], d[1]) && d == [d[0], d[1]]
    ensures |d| == 3 ==> Encode(d) == EncodeBlock(d[0], d[1], d[2]) && d == [d[0], d[1], d[2]]
  {
    if |d| == 3 {
      assert d[3..] == [];
    }
  }

  /** One to three bytes survive a round trip through one quantum; fewer
      than three only through the final one, which alone may be padded. */
  lemma QuantumRoundTrip(d: seq<byte>, last: bool)
    requires 1 <= |d| <= 3 && (|d| < 3 ==> last)
    ensures |Encode(d)| == 4 && DecodeQuantum(Encode(d), last) == Some(d)
  {
    EncodeShort(d);
    if |d| == 1 {
      Tail1RoundTrip(d[0]);
    } else if |d| == 2 {
      Tail2RoundTrip(d[0], d[1]);
    } else {
      BlockRoundTrip(d[0], d[1], d[2], last);
    }
  }

  /** A quantum of four alphabet characters decodes to three bytes. */
  lemma BlockDecodes(q: string, last: bool, w: Sextet, x: Sextet, y: Sextet, z: Sextet)
    requires |q| == 4 && q[2] != Padding && q[3] != Padding
    requires IndexOf(q[0]) == Some(w) && IndexOf(q[1]) == Some(x)
    requires IndexOf(q[2]) == Some(y) && IndexOf(q[3]) == Some(z)
    ensures DecodeQuantum(q, last) ==
      Some([(w * 4 + x / 16) as byte, ((x % 16) * 16 + y / 4) as byte, ((y % 4) * 64 + z) as byte])
  {
    SextetsRoundTrip(w, x, y, z);
  }

  /** The three bytes a quantum of four alphabet characters carries encode
      back to that quantum. */
  lemma BlockEncodes(q: string, w: Sextet, x: Sextet, y: Sextet, z: Sextet)
    requires |q| == 4
    requires IndexOf(q[0]) == Some(w) && IndexOf(q[1]) == Some(x)
    requires IndexOf(q[2]) == Some(y) && IndexOf(q[3]) == Some(z)
    ensures Encode([(w * 4 + x / 16) as byte, ((x % 16) * 16 + y / 4) as byte, ((y % 4) * 64 + z) as byte]) == q
  {
    var d: seq<byte> := [(w * 4 + x / 16) as byte, ((x % 16) * 16 + y / 4) as byte, ((y % 4) * 64 + z) as byte];
    EncodeShort(d);
    QuantumSymbols(q);
    SextetsRoundTrip(w, x, y, z);
    assert q == [q[0], q[1], q[2], q[3]];
  }

  /** A final quantum `w x = =` whose discarded bits are zero decodes to
      one byte. */
  lemma Tail1Decodes(q: string, w: Sextet, x: Sextet)
    requires |q| == 4 && q[2] == Padding && q[3] == Padding
    requires IndexOf(q[0]) == Some(w) && IndexOf(q[1]) == Some(x) && x % 16 == 0
    ensures DecodeQuantum(q, true) == Some([(w * 4 + x / 16) as byte])
  {
    SextetsRoundTrip(w, x, 0, 0);
  }

  /** That byte encodes back to the quantum. */
  lemma Tail1Encodes(q: string, w: Sextet, x: Sextet)
    requires |q| == 4 && q[2] == Padding && q[3] == Padding
    requires IndexOf(q[0]) == Some(w) && IndexOf(q[1]) == Some(x) && x % 16 == 0
    ensures Encode([(w * 4 + x / 16) as byte]) == q
  {
    var d: seq<byte> := [(w * 4 + x / 16) as byte];
    EncodeShort(d);
    QuantumSymbols(q);
    SextetsRoundTrip(w, x, 0, 0);
    assert q == [q[0], q[1], q[2], q[3]];
  }

  /** A final quantum `w x y =` whose discarded bits are zero decodes to
      two bytes. */
  lemma Tail2Decodes(q: string, w: Sextet, x: Sextet, y: Sextet)
    requires |q| == 4 && q[2] != Padding && q[3] == Padding
    requires IndexOf(q[0]) == Some(w) && IndexOf(q[1]) == Some(x)
    requires IndexOf(q[2]) == Some(y) && y % 4 == 0
    ensures DecodeQuantum(q, true) == Some([(w * 4 + x / 16) as byte, ((x % 16) * 16 + y / 4) as byte])
  {
    SextetsRoundTrip(w, x, y, 0);
  }

  /** Those two bytes encode back to the quantum. */
  lemma Tail2Encodes(q: string, w: Sextet, x: Sextet, y: Sextet)
    requires |q| == 4 && q[3] == Padding
    requires IndexOf(q[0]) == Some(w) && IndexOf(q[1]) == Some(x)
    requires IndexOf(q[2]) == Some(y) && y % 4 == 0
    ensures Encode([(w * 4 + x / 16) as byte, ((x % 16) * 16 + y / 4) as byte]) == q
  {
    var d: seq<byte> := [(w * 4 + x / 16) as byte, ((x % 16) * 16 + y / 4) as byte];
    EncodeShort(d);
    QuantumSymbols(q);
    SextetsRoundTrip(w, x, y, 0);
    assert q == [q[0], q[1], q[2], q[3]];
  }

  /** A quantum is canonical when whatever it decodes to encodes back to
      that very quantum, and only a final quantum carries fewer than three
      bytes. */
  predicate Canonical(q: string, last: bool)
    requires |q| == 4
  {
    DecodeQuantum(q, last).Some? ==>
      var d := DecodeQuantum(q, last).value;
      1 <= |d| <= 3 && (|d| < 3 ==> last) && Encode(d) == q
  }

  lemma Tail1Canonical(q: string, last: bool, w: Sextet, x: Sextet)
    requires |q| == 4 && q[2] == Padding && q[3] == Padding
    requires IndexOf(q[0]) == Some(w) && IndexOf(q[1]) == Some(x) && x % 16 == 0 && last
    ensures Canonical(q, last)
  {
    Tail1Decodes(q, w, x);
    Tail1Encodes(q, w, x);
  }

  lemma Tail2Canonical(q: string, last: bool, w: Sextet, x: Sextet, y: Sextet)
    requires |q| == 4 && q[2] != Padding && q[3] == Padding
    requires IndexOf(q[0]) == Some(w) && IndexOf(q[1]) == Some(x)
    requires IndexOf(q[2]) == Some(y) && y % 4 == 0 && last
    ensures Canonical(q, last)
  {
    Tail2Decodes(q, w, x, y);
    Tail2Encodes(q, w, x, y);
  }

  lemma BlockCanonical(q: string, last: bool, w: Sextet, x: Sextet, y: Sextet, z: Sextet)
    requires |q| == 4 && q[2] != Padding && q[3] != Padding
    requires IndexOf(q[0]) == Some(w) && IndexOf(q[1]) == Some(x)
    requires IndexOf(q[2]) == Some(y) && IndexOf(q[3]) == Some(z)
    ensures Canonical(q, last)
  {
    BlockDecodes(q, last, w, x, y, z);
    BlockEncodes(q, w, x, y, z);
  }

  /** Every quantum is canonical. */
  lemma QuantumCanonical(q: string, last: bool)
    requires |q| == 4
    ensures Canonical(q, last)
  {
    var i0, i1, i2, i3 := IndexOf(q[0]), IndexOf(q[1]), IndexOf(q[2]), IndexOf(q[3]);
    if i0.Some? && i1.Some? {
      if q[2] == Padding && q[3] == Padding {
        if last && i1.value % 16 == 0 {
          Tail1Canonical(q, last, i0.value, i1.value);
        }
      } else if i2.Some? && q[3] == Padding {
        if last && i2.value % 4 == 0 {
          Tail2Canonical(q, last, i0.value, i1.value, i2.value);
        }
      } else if i2.Some? && i3.Some? {
        BlockCanonical(q, last, i0.value, i1.value, i2.value, i3.value);
      }
    }
  }

  /** A text of one quantum decodes as a final quantum. */
  lemma DecodeSingle(q: string)
    requires |q| == 4
    ensures Decode(q) == DecodeQuantum(q, true)
  {
  }

  /** A full leading quantum followed by a decodable remainder decodes to
      the concatenation of the two. */
  lemma DecodeAppend(q: string, r: string, h: seq<byte>, t: seq<byte>)
    ensures |q| == 4 && |r| >= 4 && DecodeQuantum(q, false) == Some(h) && Decode(r) == Some(t)
      ==> Decode(q + r) == Some(h + t)
  {
    if |q| == 4 && |r| >= 4 {
      var s := q + r;
      assert s[..4] == q;
      assert s[4..] == r;
    }
  }

  /** A text of more than one quantum that decodes at all decodes to its
      first quantum's bytes followed by the rest's. */
  lemma DecodeSplit(s: string)
    requires |s| > 4
    ensures Decode(s).Some? ==>
      && DecodeQuantum(s[..4], false).Some? && Decode(s[4..]).Some?
      && Decode(s).value == DecodeQuantum(s[..4], false).value + Decode(s[4..]).value
  {
  }

  /** Three bytes encode as one full quantum. */
  lemma EncodeThree(h: seq<byte>)
    requires |h| == 3
    ensures Encode(h) == EncodeBlock(h[0], h[1], h[2])
  {
    assert h[3..] == [];
  }

  /** Encoding works quantum by quantum: the first three bytes, then the rest. */
  lemma EncodeSplit(data: seq<byte>)
    requires |data| > 3
    ensures Encode(data) == Encode(data[..3]) + Encode(data[3..])
    ensures |Encode(data[..3])| == 4 && |Encode(data[3..])| >= 4
  {
    EncodeThree(data[..3]);
  }

  lemma SplitBytes(h: seq<byte>, t: seq<byte>)
    requires |h| == 3
    ensures (h + t)[..3] == h && (h + t)[3..] == t
  {
  }

  lemma SplitAt3(data: seq<byte>)
    requires |data| > 3
    ensures data[..3] + data[3..] == data
  {
  }

  lemma SplitAt4(s: string)
    requires |s| > 4
    ensures s[..4] + s[4..] == s
  {
  }

  /** The inductive step of `DecodeEncode`: a full quantum, then the rest. */
  lemma DecodeEncodeStep(data: seq<byte>)
    requires |data| > 3
    requires Decode(Encode(data[3..])) == Some(data[3..])
    ensures Decode(Encode(data)) == Some(data)
  {
    EncodeSplit(data);
    QuantumRoundTrip(data[..3], false);
    DecodeAppend(Encode(data[..3]), Encode(data[3..]), data[..3], data[3..]);
    SplitAt3(data);
  }

  /** Decoding undoes encoding: the client recovers exactly the bytes the
      worker encoded. */
  lemma {:induction false} DecodeEncode(data: seq<byte>)
    ensures Decode(Encode(data)) == Some(data)
    decreases |data|
  {
    if 1 <= |data| <= 3 {
      QuantumRoundTrip(data, true);
      DecodeSingle(Encode(data));
    } else if |data| > 3 {
      DecodeEncode(data[3..]);
      DecodeEncodeStep(data);
    }
  }

  /** The inductive step of `EncodeDecode`: a full quantum, then the rest. */
  lemma EncodeDecodeStep(s: string)
    requires |s| > 4
    requires Decode(s[4..]).Some? ==> Encode(Decode(s[4..]).value) == s[4..]
    ensures Decode(s).Some? ==> Encode(Decode(s).value) == s
  {
    DecodeSplit(s);
    QuantumCanonical(s[..4], false);
    if Decode(s).Some? {
      var h, t := DecodeQuantum(s[..4], false).value, Decode(s[4..]).value;
      SplitBytes(h, t);
      EncodeSplit(h + t);
      SplitAt4(s);
    }
  }

  /** Encoding undoes decoding: a text the decoder accepts is the encoding
      of the bytes it yields. */
  lemma {:induction false} EncodeDecode(s: string)
    ensures Decode(s).Some? ==> Encode(Decode(s).value) == s
    decreases |s|
  {
    if |s| == 4 {
      DecodeSingle(s);
      QuantumCanonical(s, true);
    } else if |s| > 4 {
      EncodeDecode(s[4..]);
      EncodeDecodeStep(s);
    }
  }

  /** The two directions together: a text decodes to `data` exactly when
      it is the encoding of `data`. */
  lemma DecodeIffEncode(s: string, data: seq<byte>)
    ensures Decode(s) == Some(data) <==> s == Encode(data)
  {
    EncodeDecode(s);
    DecodeEncode(data);
  }
}
