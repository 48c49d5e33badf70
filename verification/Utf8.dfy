/** The length of text in UTF-8 (section 3 of RFC 3629): one to four octets a character, additive. */
module Utf8 {

  function Octets(c: char): (n: nat)
    ensures 1 <= n <= 4
  {
    if c as int < 0x80 then 1 else if c as int < 0x800 then 2 else if c as int < 0x1_0000 then 3 else 4
  }

  function Length(s: string): nat {
    if s == "" then 0 else Length(s[..|s| - 1]) + Octets(s[|s| - 1])
  }

  lemma {:induction false} LengthConcat(s: string, t: string)
    ensures Length(s + t) == Length(s) + Length(t)
  {
    if t == "" {
      assert s + t == s;
    } else {
      LengthConcat(s, t[..|t| - 1]);
      assert (s + t)[..|s + t| - 1] == s + t[..|t| - 1];
    }
  }

  /** A part of a text is never longer than the text. */
  lemma {:induction false} LengthOfPart(s: string, i: nat, j: nat)
    requires i <= j <= |s|
    ensures Length(s[i..j]) <= Length(s)
  {
    assert s == s[..i] + s[i..j] + s[j..];
    LengthConcat(s[..i] + s[i..j], s[j..]);
    LengthConcat(s[..i], s[i..j]);
  }

  // ----- The encoding itself

  /** One octet for each six bits and a lead that tells how many follow. */
  function Encode(c: char): seq<int> {
    var n := c as int;
    if n < 0x80 then [n]
    else if n < 0x800 then [0xC0 + n / 0x40, 0x80 + n % 0x40]
    else if n < 0x1_0000 then [0xE0 + n / 0x40 / 0x40, 0x80 + n / 0x40 % 0x40, 0x80 + n % 0x40]
    else [0xF0 + n / 0x40 / 0x40 / 0x40, 0x80 + n / 0x40 / 0x40 % 0x40, 0x80 + n / 0x40 % 0x40, 0x80 + n % 0x40]
  }

  function EncodeAll(s: string): seq<int> {
    if s == "" then [] else EncodeAll(s[..|s| - 1]) + Encode(s[|s| - 1])
  }

  /** How many octets a character takes whose first octet is `lead`. */
  function Follows(lead: int): nat {
    if lead < 0x80 then 1 else if lead < 0xE0 then 2 else if lead < 0xF0 then 3 else 4
  }

  /** The character at the front, by its lead octet and the six bits of each that follows. */
  function Decode(octets: seq<int>): int
    requires octets != [] && Follows(octets[0]) <= |octets|
  {
    match Follows(octets[0])
    case 1 => octets[0]
    case 2 => (octets[0] - 0xC0) * 0x40 + (octets[1] - 0x80)
    case 3 => (octets[0] - 0xE0) * 0x1000 + (octets[1] - 0x80) * 0x40 + (octets[2] - 0x80)
    case _ =>
      (octets[0] - 0xF0) * 0x4_0000 + (octets[1] - 0x80) * 0x1000 + (octets[2] - 0x80) * 0x40 + (octets[3] - 0x80)
  }

  /** Each octet is one, those behind the lead have their own range, and the character can be read back. */
  lemma DecodesBack(c: char, rest: seq<int>)
    ensures var octets := Encode(c);
            && (forall i :: 0 <= i < |octets| ==> 0 <= octets[i] < 0x100 && (i > 0 <==> 0x80 <= octets[i] < 0xC0))
            && Follows((octets + rest)[0]) == |octets| && Decode(octets + rest) == c as int
  {
    var n := c as int;
    var a, b := n / 0x40, n / 0x40 / 0x40;
    assert n == a * 0x40 + n % 0x40 && a == b * 0x40 + a % 0x40 && b == b / 0x40 * 0x40 + b % 0x40;
    assert n < 0x11_0000;
    var octets, all := Encode(c), Encode(c) + rest;
    assert forall i :: 0 <= i < |octets| ==> all[i] == octets[i];
  }

  /** The length is that of the encoded text. */
  lemma {:induction false} LengthIsEncoded(s: string)
    ensures Length(s) == |EncodeAll(s)|
  {
    if s != "" {
      LengthIsEncoded(s[..|s| - 1]);
      DecodesBack(s[|s| - 1], []);
    }
  }
}
