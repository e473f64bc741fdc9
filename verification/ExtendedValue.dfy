/** File names in a Content-Disposition header: the value-chars of section 3.2.1 of RFC 5987. */
module ExtendedValue {
  import opened Wrappers
  import opened Text

  /** attr-char: letters, digits and twelve marks. */
  predicate AttrChar(b: Byte) {
    0x30 <= b <= 0x39 || 0x41 <= b <= 0x5a || 0x61 <= b <= 0x7a ||
    b in [0x21, 0x23, 0x24, 0x26, 0x2b, 0x2d, 0x2e, 0x5e, 0x5f, 0x60, 0x7c, 0x7e]
  }

  const LETTERS := "ABCDEFGHIJKLMNOPQRSTUVWXYZ"
  const SMALL_LETTERS := "abcdefghijklmnopqrstuvwxyz"
  const DIGITS := "0123456789"
  const MARKS := "!#$&+-.^_`|~"

  lemma LettersExactly(c: char)
    ensures c in LETTERS <==> 'A' <= c <= 'Z'
  {
    if 'A' <= c <= 'Z' { assert LETTERS[c as int - 'A' as int] == c; }
  }

  lemma SmallLettersExactly(c: char)
    ensures c in SMALL_LETTERS <==> 'a' <= c <= 'z'
  {
    if 'a' <= c <= 'z' { assert SMALL_LETTERS[c as int - 'a' as int] == c; }
  }

  lemma DigitsExactly(c: char)
    ensures c in DIGITS <==> '0' <= c <= '9'
  {
    if '0' <= c <= '9' { assert DIGITS[c as int - '0' as int] == c; }
  }

  /** The set of section 3.2.1 of RFC 5987. */
  lemma AttrCharExactly(b: Byte)
    ensures AttrChar(b) <==> b as char in LETTERS || b as char in SMALL_LETTERS || b as char in DIGITS || b as char in MARKS
  {
    LettersExactly(b as char);
    SmallLettersExactly(b as char);
    DigitsExactly(b as char);
    MarksExactly(b as char);
  }

  lemma MarksExactly(c: char)
    ensures c in MARKS <==> c in {'!', '#', '$', '&', '+', '-', '.', '^', '_', '`', '|', '~'}
  {
  }

  function One(b: Byte): string {
    if AttrChar(b) then [b as char] else ['%', HexDigit(b / 16, 'A'), HexDigit(b % 16, 'A')]
  }

  /** A byte is itself if it is an attr-char, and otherwise its two hexadecimal digits in capitals. */
  lemma EncodedByte(b: Byte)
    ensures One(b) == if AttrChar(b) then [b as char]
                      else "%" + ["0123456789ABCDEF"[b / 16]] + ["0123456789ABCDEF"[b % 16]]
  {
  }

  function Encoded(value: seq<Byte>): string {
    if value == [] then "" else One(value[0]) + Encoded(value[1..])
  }

  lemma OneMore(value: seq<Byte>, i: nat, out: string)
    requires i < |value|
    ensures out + Encoded(value[i..]) == out + One(value[i]) + Encoded(value[i + 1..])
  {
    var one, rest := One(value[i]), Encoded(value[i + 1..]);
    assert value[i..][1..] == value[i + 1..];
    assert Encoded(value[i..]) == one + rest;
    assert out + (one + rest) == out + one + rest;
  }

  /** Percent-encodes byte by byte. */
  method Encode(value: seq<Byte>) returns (out: string)
    ensures out == Encoded(value)
  {
    out := "";
    for i := 0 to |value|
      invariant out + Encoded(value[i..]) == Encoded(value)
    {
      OneMore(value, i, out);
      out := out + One(value[i]);
    }
    assert out + Encoded(value[|value|..]) == out;
  }

  /** What a recipient reads: `%XX` is a byte, an attr-char is itself, anything else is malformed. */
  function Decoded(s: string): Option<seq<Byte>> {
    if s == "" then Some([])
    else if s[0] == '%' then
      if |s| < 3 then None
      else
        var hi, lo, rest := HexValue(s[1]), HexValue(s[2]), Decoded(s[3..]);
        if hi.None? || lo.None? || rest.None? then None
        else
          var b: Byte := hi.value * 16 + lo.value;
          Some([b] + rest.value)
    else
      var rest := Decoded(s[1..]);
      if s[0] as int >= 256 || !AttrChar(s[0] as int) || rest.None? then None
      else
        var b: Byte := s[0] as int;
        Some([b] + rest.value)
  }

  lemma DecodedOne(b: Byte, rest: string)
    ensures Decoded(One(b) + rest) == match Decoded(rest) case None => None case Some(bs) => Some([b] + bs)
  {
    var s := One(b) + rest;
    if AttrChar(b) {
      assert s[1..] == rest;
    } else {
      assert s[3..] == rest;
    }
  }

  lemma {:induction false} EncodedDecodes(value: seq<Byte>)
    ensures Decoded(Encoded(value)) == Some(value)
  {
    if value != [] {
      EncodedDecodes(value[1..]);
      DecodedOne(value[0], Encoded(value[1..]));
      assert value == [value[0]] + value[1..];
    }
  }

  /** Every byte string comes back from its encoding, and the encoding is a value of the grammar:
      only attr-chars and `%XX`. In particular no two names share an encoding. */
  lemma RoundTrip(value: seq<Byte>, other: seq<Byte>)
    ensures Decoded(Encoded(value)) == Some(value)
    ensures Encoded(value) == Encoded(other) ==> value == other
  {
    EncodedDecodes(value);
    EncodedDecodes(other);
  }
}
