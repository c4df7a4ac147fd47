/** The base64url encoding without padding, section 5 of RFC 4648, on bytes of text. Decoding is strict: bits
    that carry no data must be zero. */
module Base64Url {
  import opened Common

  type Bytes = seq<bv8>

  const DOT: bv8 := 46

  /** The character of a six-bit value: A-Z, a-z, 0-9, '-' and '_'. */
  function Character(s: bv8): bv8
    requires s < 64
  {
    if s < 26 then s + 65
    else if s < 52 then s + 71
    else if s < 62 then s - 4
    else if s == 62 then 45
    else 95
  }

  predicate IsCharacter(c: bv8) {
    65 <= c <= 90 || 97 <= c <= 122 || 48 <= c <= 57 || c == 45 || c == 95
  }

  function Value(c: bv8): (s: bv8)
    requires IsCharacter(c)
    ensures s < 64
  {
    if 65 <= c <= 90 then c - 65
    else if 97 <= c <= 122 then c - 71
    else if 48 <= c <= 57 then c + 4
    else if c == 45 then 62
    else 63
  }

  lemma ValueOfCharacter(s: bv8)
    requires s < 64
    ensures IsCharacter(Character(s)) && Value(Character(s)) == s && Character(s) != DOT
  {
  }

  lemma CharacterOfValue(c: bv8)
    requires IsCharacter(c)
    ensures Character(Value(c)) == c
  {
  }

  // ----- the six-bit values of up to three bytes -----

  function First(a: bv8): (s: bv8)
    ensures s < 64
  {
    a >> 2
  }

  function Second(a: bv8, b: bv8): (s: bv8)
    ensures s < 64
  {
    ((a & 3) << 4) | (b >> 4)
  }

  function Third(b: bv8, c: bv8): (s: bv8)
    ensures s < 64
  {
    ((b & 15) << 2) | (c >> 6)
  }

  function Fourth(c: bv8): (s: bv8)
    ensures s < 64
  {
    c & 63
  }

  function ByteOne(p: bv8, q: bv8): bv8 { (p << 2) | (q >> 4) }

  function ByteTwo(q: bv8, r: bv8): bv8 { (q << 4) | (r >> 2) }

  function ByteThree(r: bv8, s: bv8): bv8 { (r << 6) | s }

  lemma SplitThenJoin(a: bv8, b: bv8, c: bv8)
    ensures ByteOne(First(a), Second(a, b)) == a
    ensures ByteTwo(Second(a, b), Third(b, c)) == b
    ensures ByteThree(Third(b, c), Fourth(c)) == c
    ensures Second(a, 0) & 15 == 0 && Third(b, 0) & 3 == 0
  {
  }

  lemma JoinThenSplit(p: bv8, q: bv8, r: bv8, s: bv8)
    requires p < 64 && q < 64 && r < 64 && s < 64
    ensures First(ByteOne(p, q)) == p
    ensures Second(ByteOne(p, q), ByteTwo(q, r)) == q
    ensures Third(ByteTwo(q, r), ByteThree(r, s)) == r
    ensures Fourth(ByteThree(r, s)) == s
    ensures q & 15 == 0 ==> Second(ByteOne(p, q), 0) == q
    ensures r & 3 == 0 ==> Third(ByteTwo(q, r), 0) == r
  {
  }

  // ----- encoding and decoding -----

  function Encode(b: Bytes): Bytes {
    if |b| == 0 then []
    else if |b| == 1 then [Character(First(b[0])), Character(Second(b[0], 0))]
    else if |b| == 2 then [Character(First(b[0])), Character(Second(b[0], b[1])), Character(Third(b[1], 0))]
    else [Character(First(b[0])), Character(Second(b[0], b[1])), Character(Third(b[1], b[2])), Character(Fourth(b[2]))]
         + Encode(b[3..])
  }

  function Decode(t: Bytes): Option<Bytes> {
    if |t| == 0 then Some([])
    else if |t| == 1 || !IsCharacter(t[0]) || !IsCharacter(t[1]) then None
    else
      var p, q := Value(t[0]), Value(t[1]);
      if |t| == 2 then
        if q & 15 == 0 then Some([ByteOne(p, q)]) else None
      else if !IsCharacter(t[2]) then None
      else
        var r := Value(t[2]);
        if |t| == 3 then
          if r & 3 == 0 then Some([ByteOne(p, q), ByteTwo(q, r)]) else None
        else if !IsCharacter(t[3]) then None
        else
          var s := Value(t[3]);
          var rest := Decode(t[4..]);
          if rest.None? then None else Some([ByteOne(p, q), ByteTwo(q, r), ByteThree(r, s)] + rest.value)
  }

  /** Decoding undoes encoding. */
  lemma {:induction false} DecodeEncode(b: Bytes)
    ensures Decode(Encode(b)) == Some(b)
    decreases |b|
  {
    if |b| > 0 {
      var second := if |b| > 1 then b[1] else 0;
      var third := if |b| > 2 then b[2] else 0;
      SplitThenJoin(b[0], second, third);
      ValueOfCharacter(First(b[0]));
      ValueOfCharacter(Second(b[0], second));
      ValueOfCharacter(Third(second, third));
      ValueOfCharacter(Fourth(third));
      var t := Encode(b);
      assert t[0] == Character(First(b[0])) && t[1] == Character(Second(b[0], second));
      if |b| == 1 {
        assert |t| == 2;
        assert Decode(t) == Some([b[0]]);
        assert b == [b[0]];
      } else if |b| == 2 {
        assert |t| == 3 && t[2] == Character(Third(b[1], 0));
        assert Decode(t) == Some([b[0], b[1]]);
        assert b == [b[0], b[1]];
      } else {
        DecodeEncode(b[3..]);
        assert t[2] == Character(Third(b[1], b[2])) && t[3] == Character(Fourth(b[2]));
        assert t[4..] == Encode(b[3..]);
        assert Decode(t) == Some([b[0], b[1], b[2]] + b[3..]);
        assert b == [b[0], b[1], b[2]] + b[3..];
      }
    }
  }

  /** Only one text decodes to given bytes: their encoding. */
  lemma {:induction false} EncodeDecode(t: Bytes)
    requires Decode(t).Some?
    ensures Encode(Decode(t).value) == t
    decreases |t|
  {
    if |t| > 0 {
      var p, q := Value(t[0]), Value(t[1]);
      var r := if |t| > 2 then Value(t[2]) else 0;
      var s := if |t| > 3 then Value(t[3]) else 0;
      JoinThenSplit(p, q, r, s);
      CharacterOfValue(t[0]);
      CharacterOfValue(t[1]);
      if |t| > 2 {
        CharacterOfValue(t[2]);
      }
      if |t| > 3 {
        CharacterOfValue(t[3]);
        EncodeDecode(t[4..]);
        var b := Decode(t).value;
        assert b[3..] == Decode(t[4..]).value;
        assert t == t[..4] + t[4..];
      }
    }
  }

  lemma {:induction false} EncodingHasNoDot(b: Bytes)
    ensures DOT !in Encode(b)
    decreases |b|
  {
    if |b| > 0 {
      var second := if |b| > 1 then b[1] else 0;
      var third := if |b| > 2 then b[2] else 0;
      ValueOfCharacter(First(b[0]));
      ValueOfCharacter(Second(b[0], second));
      ValueOfCharacter(Third(second, third));
      ValueOfCharacter(Fourth(third));
      if |b| > 2 {
        EncodingHasNoDot(b[3..]);
      }
    }
  }

  // ----- known encodings -----

  /** The alphabet of section 5 of RFC 4648, four characters at a time. */
  lemma LettersAre()
    ensures Encode([0, 16, 131]) == [65, 66, 67, 68] // "ABCD"
    ensures Encode([16, 81, 135]) == [69, 70, 71, 72] // "EFGH"
    ensures Encode([32, 146, 139]) == [73, 74, 75, 76] // "IJKL"
    ensures Encode([48, 211, 143]) == [77, 78, 79, 80] // "MNOP"
    ensures Encode([65, 20, 147]) == [81, 82, 83, 84] // "QRST"
    ensures Encode([81, 85, 151]) == [85, 86, 87, 88] // "UVWX"
    ensures Encode([97, 150, 155]) == [89, 90, 97, 98] // "YZab"
    ensures Encode([113, 215, 159]) == [99, 100, 101, 102] // "cdef"
    ensures Encode([130, 24, 163]) == [103, 104, 105, 106] // "ghij"
    ensures Encode([146, 89, 167]) == [107, 108, 109, 110] // "klmn"
    ensures Encode([162, 154, 171]) == [111, 112, 113, 114] // "opqr"
    ensures Encode([178, 219, 175]) == [115, 116, 117, 118] // "stuv"
    ensures Encode([195, 28, 179]) == [119, 120, 121, 122] // "wxyz"
  {
  }

  lemma DigitsAndSignsAre()
    ensures Encode([211, 93, 183]) == [48, 49, 50, 51] // "0123"
    ensures Encode([227, 158, 187]) == [52, 53, 54, 55] // "4567"
    ensures Encode([243, 223, 191]) == [56, 57, 45, 95] // "89-_"
  {
  }

  /** The test vectors of section 10 of RFC 4648, without padding. */
  lemma TestVectors()
    ensures Encode([]) == [] // "": ""
    ensures Encode([102]) == [90, 103] // "f": "Zg"
    ensures Encode([102, 111]) == [90, 109, 56] // "fo": "Zm8"
    ensures Encode([102, 111, 111]) == [90, 109, 57, 118] // "foo": "Zm9v"
    ensures Encode([102, 111, 111, 98]) == [90, 109, 57, 118, 89, 103] // "foob": "Zm9vYg"
    ensures Encode([102, 111, 111, 98, 97]) == [90, 109, 57, 118, 89, 109, 69] // "fooba": "Zm9vYmE"
    ensures Encode([102, 111, 111, 98, 97, 114]) == [90, 109, 57, 118, 89, 109, 70, 121] // "foobar": "Zm9vYmFy"
  {
    assert [102, 111, 111, 98][3..] == [98];
    assert [102, 111, 111, 98, 97][3..] == [98, 97];
    assert [102, 111, 111, 98, 97, 114][3..] == [98, 97, 114];
  }

  /** What is refused: a single character left over, another character, and bits that carry no data but are set. */
  lemma RefusedTexts()
    ensures Decode([90, 103, 90, 103, 90]) == None // "ZgZgZ"
    ensures Decode([90, 43]) == None // "Z+"
    ensures Decode([90, 103, 61, 61]) == None // "Zg=="
    ensures Decode([90, 104]) == None // "Zh"
    ensures Decode([90, 109, 57]) == None // "Zm9"
  {
    assert [90, 103, 90, 103, 90][4..] == [90];
  }
}
