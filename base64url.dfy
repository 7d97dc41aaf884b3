/** The URL- and filename-safe base64 alphabet of section 5 of RFC 4648, as
    `java.util.Base64.getUrlEncoder().withoutPadding()` writes it and
    `java.util.Base64.getUrlDecoder()` reads it. */
module Base64Url {
  import opened Wrappers
  import opened JavaText

  type sextet = v: int | 0 <= v < 64

  /** The character the alphabet assigns to a 6-bit value. */
  function CharOf(v: sextet): char {
    if v < 26 then ('A' as int + v) as char
    else if v < 52 then ('a' as int + (v - 26)) as char
    else if v < 62 then ('0' as int + (v - 52)) as char
    else if v == 62 then '-'
    else '_'
  }

  /** `[A-Za-z0-9_-]`: the characters of the URL-safe alphabet. */
  predicate IsUrlChar(c: char) {
    ('A' <= c <= 'Z') || ('a' <= c <= 'z') || ('0' <= c <= '9') || c == '-' || c == '_'
  }

  /** The decoder's table: the 6-bit value of an alphabet character. */
  function ValueOf(c: char): (v: sextet)
    requires IsUrlChar(c)
  {
    if 'A' <= c <= 'Z' then c as int - 'A' as int
    else if 'a' <= c <= 'z' then c as int - 'a' as int + 26
    else if '0' <= c <= '9' then c as int - '0' as int + 52
    else if c == '-' then 62
    else 63
  }

  lemma CharOfInAlphabet(v: sextet)
    ensures IsUrlChar(CharOf(v)) && ValueOf(CharOf(v)) == v
  {
  }

  predicate AllUrlChars(s: string) {
    forall i :: 0 <= i < |s| ==> IsUrlChar(s[i])
  }

  /** The four characters of one complete 3-byte group. */
  function EncodeGroup(b0: byte, b1: byte, b2: byte): string {
    [CharOf(b0 / 4), CharOf((b0 % 4) * 16 + b1 / 16), CharOf((b1 % 16) * 4 + b2 / 64), CharOf(b2 % 64)]
  }

  /** Unpadded encoding: a final group of one byte gives two characters, a
      final group of two bytes gives three, and no '=' is written. */
  function EncodeUnpadded(b: seq<byte>): (s: string)
    ensures |s| == (4 * |b| + 2) / 3
    ensures AllUrlChars(s)
  {
    if |b| == 0 then []
    else if |b| == 1 then
      CharOfInAlphabet(b[0] / 4);
      CharOfInAlphabet((b[0] % 4) * 16);
      [CharOf(b[0] / 4), CharOf((b[0] % 4) * 16)]
    else if |b| == 2 then
      CharOfInAlphabet(b[0] / 4);
      CharOfInAlphabet((b[0] % 4) * 16 + b[1] / 16);
      CharOfInAlphabet((b[1] % 16) * 4);
      [CharOf(b[0] / 4), CharOf((b[0] % 4) * 16 + b[1] / 16), CharOf((b[1] % 16) * 4)]
    else
      CharOfInAlphabet(b[0] / 4);
      CharOfInAlphabet((b[0] % 4) * 16 + b[1] / 16);
      CharOfInAlphabet((b[1] % 16) * 4 + b[2] / 64);
      CharOfInAlphabet(b[2] % 64);
      EncodeGroup(b[0], b[1], b[2]) + EncodeUnpadded(b[3..])
  }

  /** Decoding without padding. A final unit of two characters gives one
      byte and of three characters gives two; the low bits they carry
      beyond that are dropped, as Java's decoder drops them. A final unit
      of one character, or any character outside the alphabet, is the
      decoder's `IllegalArgumentException`, modelled as `None`. */
  function DecodeUnpadded(s: string): (r: Option<seq<byte>>)
    ensures r.Some? ==> AllUrlChars(s)
  {
    if |s| == 0 then Some([])
    else if |s| == 1 then None
    else if |s| == 2 then
      if IsUrlChar(s[0]) && IsUrlChar(s[1]) then
        Some([ValueOf(s[0]) * 4 + ValueOf(s[1]) / 16])
      else None
    else if |s| == 3 then
      if IsUrlChar(s[0]) && IsUrlChar(s[1]) && IsUrlChar(s[2]) then
        Some([ValueOf(s[0]) * 4 + ValueOf(s[1]) / 16, (ValueOf(s[1]) % 16) * 16 + ValueOf(s[2]) / 4])
      else None
    else if IsUrlChar(s[0]) && IsUrlChar(s[1]) && IsUrlChar(s[2]) && IsUrlChar(s[3]) then
      match DecodeUnpadded(s[4..])
      case None => None
      case Some(rest) =>
        var v0, v1, v2, v3 := ValueOf(s[0]), ValueOf(s[1]), ValueOf(s[2]), ValueOf(s[3]);
        Some([v0 * 4 + v1 / 16, (v1 % 16) * 16 + v2 / 4, (v2 % 4) * 64 + v3] + rest)
    else None
  }

  /** `Base64.getUrlDecoder().decode(String)`: unpadded input, or input
      whose length is a multiple of four ending in "==" after two data
      characters or "=" after three. Any other '=' is rejected. */
  function Decode(s: string): (r: Option<seq<byte>>)
  {
    if |s| >= 4 && |s| % 4 == 0 && s[|s| - 2..] == "==" then DecodeUnpadded(s[..|s| - 2])
    else if |s| >= 4 && |s| % 4 == 0 && s[|s| - 1] == '=' then DecodeUnpadded(s[..|s| - 1])
    else DecodeUnpadded(s)
  }

  lemma GroupRoundTrip(b0: byte, b1: byte, b2: byte)
    ensures (b0 / 4) * 4 + ((b0 % 4) * 16 + b1 / 16) / 16 == b0
    ensures (((b0 % 4) * 16 + b1 / 16) % 16) * 16 + ((b1 % 16) * 4 + b2 / 64) / 4 == b1
    ensures (((b1 % 16) * 4 + b2 / 64) % 4) * 64 + b2 % 64 == b2
  {
  }

  lemma {:induction false} DecodeEncodeUnpadded(b: seq<byte>)
    ensures DecodeUnpadded(EncodeUnpadded(b)) == Some(b)
  {
    if |b| == 0 {
    } else if |b| == 1 {
      DecodeFinalUnit(b[0], 0, false);
      assert b == [b[0]];
    } else if |b| == 2 {
      DecodeFinalUnit(b[0], b[1], true);
      assert b == [b[0], b[1]];
    } else {
      assert EncodeUnpadded(b) == EncodeGroup(b[0], b[1], b[2]) + EncodeUnpadded(b[3..]);
      DecodeAfterGroup(b[0], b[1], b[2], EncodeUnpadded(b[3..]));
      DecodeEncodeUnpadded(b[3..]);
      assert b == [b[0], b[1], b[2]] + b[3..];
    }
  }

  /** A final unit of one byte (two characters) or two bytes (three
      characters) decodes back to its bytes. */
  lemma DecodeFinalUnit(b0: byte, b1: byte, two: bool)
    ensures !two ==> DecodeUnpadded(EncodeUnpadded([b0])) == Some([b0])
    ensures two ==> DecodeUnpadded(EncodeUnpadded([b0, b1])) == Some([b0, b1])
  {
    CharOfInAlphabet(b0 / 4);
    if two {
      CharOfInAlphabet((b0 % 4) * 16 + b1 / 16);
      CharOfInAlphabet((b1 % 16) * 4);
      GroupRoundTrip(b0, b1, 0);
    } else {
      CharOfInAlphabet((b0 % 4) * 16);
      GroupRoundTrip(b0, 0, 0);
    }
  }

  /** A complete group decodes to its three bytes, followed by whatever the
      rest of the input decodes to. */
  lemma DecodeAfterGroup(b0: byte, b1: byte, b2: byte, t: string)
    ensures DecodeUnpadded(EncodeGroup(b0, b1, b2) + t) ==
      match DecodeUnpadded(t)
      case None => None
      case Some(rest) => Some([b0, b1, b2] + rest)
  {
    var s := EncodeGroup(b0, b1, b2) + t;
    var v0, v1, v2, v3 := b0 / 4, (b0 % 4) * 16 + b1 / 16, (b1 % 16) * 4 + b2 / 64, b2 % 64;
    CharOfInAlphabet(v0);
    CharOfInAlphabet(v1);
    CharOfInAlphabet(v2);
    CharOfInAlphabet(v3);
    assert s[0] == CharOf(v0) && s[1] == CharOf(v1) && s[2] == CharOf(v2) && s[3] == CharOf(v3);
    assert [v0 * 4 + v1 / 16, (v1 % 16) * 16 + v2 / 4, (v2 % 4) * 64 + v3] == [b0, b1, b2] by {
      GroupRoundTrip(b0, b1, b2);
    }
    assert s[4..] == t;
  }

  /** The decoder reads back what the unpadded encoder wrote. */
  lemma DecodeEncode(b: seq<byte>)
    ensures Decode(EncodeUnpadded(b)) == Some(b)
  {
    var s := EncodeUnpadded(b);
    DecodeEncodeUnpadded(b);
    if |s| >= 4 {
      assert IsUrlChar(s[|s| - 1]);
    }
  }
}
