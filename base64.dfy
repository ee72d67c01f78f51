/** `base64.URLEncoding`: the padded base64url encoding of section 5 of RFC 4648
    ("Base 64 Encoding with URL and Filename Safe Alphabet"), with its decoding as the
    partner that states what the encoding preserves. */
module Base64 {
  import opened Errors

  type Byte = x: int | 0 <= x < 256
  type Sextet = x: int | 0 <= x < 64

  /** Each character of a Go string is one byte. */
  function Octets(s: string): (bytes: seq<Byte>)
    ensures |bytes| == |s|
  {
    seq(|s|, i requires 0 <= i < |s| => s[i] as int % 256)
  }

  /** The character for a 6-bit value: `A`-`Z`, `a`-`z`, `0`-`9`, `-`, `_`. */
  function Char(v: Sextet): char
  {
    if v < 26 then ('A' as int + v) as char
    else if v < 52 then ('a' as int + v - 26) as char
    else if v < 62 then ('0' as int + v - 52) as char
    else if v == 62 then '-'
    else '_'
  }

  /** The 6-bit value of an alphabet character; `None` for any other character. */
  function Index(c: char): (r: Option<Sextet>)
    ensures r.Some? ==> Char(r.value) == c
  {
    if 'A' <= c <= 'Z' then Some(c as int - 'A' as int)
    else if 'a' <= c <= 'z' then Some(c as int - 'a' as int + 26)
    else if '0' <= c <= '9' then Some(c as int - '0' as int + 52)
    else if c == '-' then Some(62)
    else if c == '_' then Some(63)
    else None
  }

  lemma IndexChar(v: Sextet)
    ensures Index(Char(v)) == Some(v)
  {
  }

  /** The four characters for three bytes: each carries six of their 24 bits. */
  function Group(b0: Byte, b1: Byte, b2: Byte): (q: string)
    ensures |q| == 4 && forall k :: 0 <= k < 4 ==> Index(q[k]).Some?
  {
    var s0: Sextet, s1: Sextet := b0 / 4, (b0 % 4) * 16 + b1 / 16;
    var s2: Sextet, s3: Sextet := (b1 % 16) * 4 + b2 / 64, b2 % 64;
    IndexChar(s0);
    IndexChar(s1);
    IndexChar(s2);
    IndexChar(s3);
    [Char(s0), Char(s1), Char(s2), Char(s3)]
  }

  /** The padded encoding: each group of three bytes becomes four characters; a final
      group of one or two bytes, completed with zero bits, keeps the two or three
      characters that carry its bits and is padded with `=` to four characters. */
  function Encode(d: seq<Byte>): (s: string)
    ensures |s| == 4 * ((|d| + 2) / 3)
    ensures forall k :: 0 <= k < |s| ==> s[k] == '=' || Index(s[k]).Some?
    decreases |d|
  {
    if |d| == 0 then ""
    else if |d| == 1 then Group(d[0], 0, 0)[..2] + "=="
    else if |d| == 2 then Group(d[0], d[1], 0)[..3] + "="
    else Group(d[0], d[1], d[2]) + Encode(d[3..])
  }

  /** The three bytes four sextets carry (the last one or two unused when padded). */
  function Byte0(a: Sextet, b: Sextet): Byte { a * 4 + b / 16 }
  function Byte1(b: Sextet, c: Sextet): Byte { (b % 16) * 16 + c / 4 }
  function Byte2(c: Sextet, e: Sextet): Byte { (c % 4) * 64 + e }

  /** Decoding of padded base64url text; `None` for text that is not such an encoding. */
  function Decode(s: string): Option<seq<Byte>>
    decreases |s|
  {
    if s == [] then Some([])
    else if |s| < 4 || Index(s[0]).None? || Index(s[1]).None? then None
    else
      var a, b := Index(s[0]).value, Index(s[1]).value;
      if |s| == 4 && s[2] == '=' && s[3] == '=' then Some([Byte0(a, b)])
      else if Index(s[2]).None? then None
      else
        var c := Index(s[2]).value;
        if |s| == 4 && s[3] == '=' then Some([Byte0(a, b), Byte1(b, c)])
        else if Index(s[3]).None? || Decode(s[4..]).None? then None
        else Some([Byte0(a, b), Byte1(b, c), Byte2(c, Index(s[3]).value)] + Decode(s[4..]).value)
  }

  /** The characters of a group carry its bytes. */
  lemma GroupBytes(b0: Byte, b1: Byte, b2: Byte)
    ensures var q := Group(b0, b1, b2);
      var a, b, c, e := Index(q[0]).value, Index(q[1]).value, Index(q[2]).value, Index(q[3]).value;
      Byte0(a, b) == b0 && Byte1(b, c) == b1 && Byte2(c, e) == b2
  {
    IndexChar(b0 / 4);
    IndexChar((b0 % 4) * 16 + b1 / 16);
    IndexChar((b1 % 16) * 4 + b2 / 64);
    IndexChar(b2 % 64);
  }

  /** Two alphabet characters and two pads decode to one byte. */
  lemma DecodePad2(q: string)
    requires |q| == 4 && Index(q[0]).Some? && Index(q[1]).Some? && q[2] == '=' && q[3] == '='
    ensures Decode(q) == Some([Byte0(Index(q[0]).value, Index(q[1]).value)])
  {
  }

  /** Three alphabet characters and a pad decode to two bytes. */
  lemma DecodePad1(q: string)
    requires |q| == 4 && Index(q[0]).Some? && Index(q[1]).Some? && Index(q[2]).Some? && q[3] == '='
    ensures Decode(q) ==
      Some([Byte0(Index(q[0]).value, Index(q[1]).value), Byte1(Index(q[1]).value, Index(q[2]).value)])
  {
  }

  lemma DecodeOne(d: seq<Byte>)
    requires |d| == 1
    ensures Decode(Encode(d)) == Some(d)
  {
    assert d == [d[0]];
    GroupBytes(d[0], 0, 0);
    var q := Group(d[0], 0, 0);
    var s := Encode(d);
    assert s == q[..2] + "==";
    assert s[0] == q[0] && s[1] == q[1] && s[2] == '=' && s[3] == '=';
    DecodePad2(s);
  }

  lemma DecodeTwo(d: seq<Byte>)
    requires |d| == 2
    ensures Decode(Encode(d)) == Some(d)
  {
    assert d == [d[0], d[1]];
    GroupBytes(d[0], d[1], 0);
    var q := Group(d[0], d[1], 0);
    var s := Encode(d);
    assert s == q[..3] + "=";
    assert s[0] == q[0] && s[1] == q[1] && s[2] == q[2] && s[3] == '=';
    DecodePad1(s);
  }

  /** Four alphabet characters decode to three bytes ahead of what the rest decodes to. */
  lemma DecodeQuad(q: string, rest: string)
    requires |q| == 4 && forall k :: 0 <= k < 4 ==> Index(q[k]).Some?
    ensures Decode(q + rest) ==
      if Decode(rest).None? then None
      else
        var a, b, c, e := Index(q[0]).value, Index(q[1]).value, Index(q[2]).value, Index(q[3]).value;
        Some([Byte0(a, b), Byte1(b, c), Byte2(c, e)] + Decode(rest).value)
  {
    var s := q + rest;
    assert s[..4] == q && s[4..] == rest;
    assert Index(s[0]).Some? && Index(s[1]).Some? && Index(s[2]).Some? && Index(s[3]).Some?;
  }

  /** A full group decodes to its three bytes ahead of what the rest decodes to. */
  lemma DecodeGroup(d: seq<Byte>)
    requires |d| >= 3
    ensures Decode(Encode(d)) ==
      if Decode(Encode(d[3..])).None? then None
      else Some([d[0], d[1], d[2]] + Decode(Encode(d[3..])).value)
  {
    GroupBytes(d[0], d[1], d[2]);
    DecodeQuad(Group(d[0], d[1], d[2]), Encode(d[3..]));
  }

  /** Decoding the encoding of any bytes gives the bytes back. */
  lemma {:induction false} DecodeEncode(d: seq<Byte>)
    ensures Decode(Encode(d)) == Some(d)
    decreases |d|
  {
    if |d| == 1 {
      DecodeOne(d);
    } else if |d| == 2 {
      DecodeTwo(d);
    } else if |d| >= 3 {
      assert [d[0], d[1], d[2]] + d[3..] == d;
      DecodeEncode(d[3..]);
      DecodeGroup(d);
    }
  }

  /** The test vectors of section 10 of RFC 4648 for "f", "fo", "foo" and "foobar", and
      two bytes whose encoding uses the two characters in which the URL-safe alphabet
      differs from the standard one. */
  lemma EncodeVectors()
    ensures Encode(Octets("f")) == "Zg=="
    ensures Encode(Octets("fo")) == "Zm8="
    ensures Encode(Octets("foo")) == "Zm9v"
    ensures Encode(Octets("foobar")) == "Zm9vYmFy"
    ensures Encode([251, 255]) == "-_8="
  {
    assert Octets("f") == [102];
    assert Octets("fo") == [102, 111];
    assert Octets("foo") == [102, 111, 111];
    assert Octets("foobar") == [102, 111, 111, 98, 97, 114];
    assert [102, 111, 111, 98, 97, 114][3..] == [98, 97, 114];
  }
}
