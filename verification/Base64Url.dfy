/** The unpadded URL-safe base64 of section 5 of RFC 4648. A character of the input stands for the byte
    of the same number. */
module Base64Url {
  import opened Wrappers
  import opened Strings

  function Digit(d: int): char
    requires 0 <= d < 64
  {
    if d < 26 then (d + 'A' as int) as char
    else if d < 52 then (d - 26 + 'a' as int) as char
    else if d < 62 then (d - 52 + '0' as int) as char
    else if d == 62 then '-'
    else '_'
  }

  function Value(c: char): (d: int)
    ensures -1 <= d < 64
  {
    if 'A' <= c <= 'Z' then c as int - 'A' as int
    else if 'a' <= c <= 'z' then c as int - 'a' as int + 26
    else if '0' <= c <= '9' then c as int - '0' as int + 52
    else if c == '-' then 62
    else if c == '_' then 63
    else -1
  }

  /** Three bytes as four digits. */
  function Group(a: int, b: int, c: int): (e: string)
    requires 0 <= a < 256 && 0 <= b < 256 && 0 <= c < 256
    ensures |e| == 4
  {
    [Digit(a / 4), Digit(a % 4 * 16 + b / 16), Digit(b % 16 * 4 + c / 64), Digit(c % 64)]
  }

  /** base64.RawURLEncoding.EncodeToString: a last group of one or two bytes has two or three digits. */
  function Encode(s: string): string
    requires IsBytes(s)
  {
    if s == "" then ""
    else if |s| == 1 then Group(s[0] as int, 0, 0)[..2]
    else if |s| == 2 then Group(s[0] as int, s[1] as int, 0)[..3]
    else Group(s[0] as int, s[1] as int, s[2] as int) + Encode(s[3..])
  }

  /** The bytes of four numbers of six bits. */
  function First(d0: int, d1: int): char
    requires 0 <= d0 < 64 && 0 <= d1 < 64
  {
    (d0 * 4 + d1 / 16) as char
  }

  function Second(d1: int, d2: int): char
    requires 0 <= d1 < 64 && 0 <= d2 < 64
  {
    (d1 % 16 * 16 + d2 / 4) as char
  }

  function Third(d2: int, d3: int): char
    requires 0 <= d2 < 64 && 0 <= d3 < 64
  {
    (d2 % 4 * 64 + d3) as char
  }

  /** The other way; None for what is not an encoding of anything. */
  function Decode(e: string): Option<string> {
    if e == "" then Some("")
    else if |e| == 1 || Value(e[0]) < 0 || Value(e[1]) < 0 then None
    else
      var first := First(Value(e[0]), Value(e[1]));
      if |e| == 2 then Some([first])
      else if Value(e[2]) < 0 then None
      else
        var second := Second(Value(e[1]), Value(e[2]));
        if |e| == 3 then Some([first, second])
        else if Value(e[3]) < 0 then None
        else
          var third := Third(Value(e[2]), Value(e[3]));
          match Decode(e[4..])
          case None => None
          case Some(rest) => Some([first, second, third] + rest)
  }

  lemma ValueOfDigit(d: int)
    requires 0 <= d < 64
    ensures Value(Digit(d)) == d && Digit(d) != '/'
  {
  }

  /** Three bytes as four numbers of six bits, and back. */
  lemma Regroup(a: int, b: int, c: int) returns (d0: int, d1: int, d2: int, d3: int)
    requires 0 <= a < 256 && 0 <= b < 256 && 0 <= c < 256
    ensures 0 <= d0 < 64 && 0 <= d1 < 64 && 0 <= d2 < 64 && 0 <= d3 < 64
    ensures Group(a, b, c) == [Digit(d0), Digit(d1), Digit(d2), Digit(d3)]
    ensures First(d0, d1) == a as char && Second(d1, d2) == b as char && Third(d2, d3) == c as char
  {
    d0, d1, d2, d3 := a / 4, a % 4 * 16 + b / 16, b % 16 * 4 + c / 64, c % 64;
  }

  lemma DecodeDigits(d0: int, d1: int, d2: int, d3: int, rest: string)
    requires 0 <= d0 < 64 && 0 <= d1 < 64 && 0 <= d2 < 64 && 0 <= d3 < 64 && Decode(rest).Some?
    ensures var e := [Digit(d0), Digit(d1), Digit(d2), Digit(d3)];
            && Decode(e[..2]) == Some([First(d0, d1)]) && Decode(e[..3]) == Some([First(d0, d1), Second(d1, d2)])
            && Decode(e + rest) == Some([First(d0, d1), Second(d1, d2), Third(d2, d3)] + Decode(rest).value)
  {
    ValueOfDigit(d0);
    ValueOfDigit(d1);
    ValueOfDigit(d2);
    ValueOfDigit(d3);
    var e := [Digit(d0), Digit(d1), Digit(d2), Digit(d3)];
    assert (e + rest)[4..] == rest;
  }

  lemma DecodeGroup(a: int, b: int, c: int, rest: string)
    requires 0 <= a < 256 && 0 <= b < 256 && 0 <= c < 256 && Decode(rest).Some?
    ensures Decode(Group(a, b, c)[..2]) == Some([a as char]) && Decode(Group(a, b, c)[..3]) == Some([a as char, b as char])
    ensures Decode(Group(a, b, c) + rest) == Some([a as char, b as char, c as char] + Decode(rest).value)
  {
    var d0, d1, d2, d3 := Regroup(a, b, c);
    DecodeDigits(d0, d1, d2, d3, rest);
  }

  lemma FirstThree(s: string)
    requires |s| > 2
    ensures s == [s[0], s[1], s[2]] + s[3..]
  {
  }

  lemma DecodeEncodeShort(s: string)
    requires IsBytes(s) && |s| <= 2
    ensures Decode(Encode(s)) == Some(s)
  {
    if |s| == 1 {
      DecodeGroup(s[0] as int, 0, 0, "");
      assert s == [s[0]];
    } else if |s| == 2 {
      DecodeGroup(s[0] as int, s[1] as int, 0, "");
      assert s == [s[0], s[1]];
    }
  }

  /** Decoding undoes encoding. */
  lemma {:induction false} DecodeEncode(s: string)
    requires IsBytes(s)
    ensures Decode(Encode(s)) == Some(s)
  {
    if |s| <= 2 {
      DecodeEncodeShort(s);
    } else {
      var e := Encode(s[3..]);
      DecodeEncode(s[3..]);
      DecodeGroup(s[0] as int, s[1] as int, s[2] as int, e);
      FirstThree(s);
    }
  }

  /** Distinct inputs never meet. */
  lemma EncodeIsInjective(s: string, t: string)
    requires IsBytes(s) && IsBytes(t)
    ensures Encode(s) == Encode(t) <==> s == t
  {
    DecodeEncode(s);
    DecodeEncode(t);
  }

  lemma {:induction false} EncodeHasNoSlash(s: string)
    requires IsBytes(s)
    ensures '/' !in Encode(s)
  {
    if |s| >= 3 {
      EncodeHasNoSlash(s[3..]);
    }
  }
}
