/** The URL-safe alphabet and encoding of RFC 4648 (sections 4 and 5), with padding that can be
    stripped and restored (section 3.2). Bytes are numbers below 256. */
module Base64 {
  import opened Wrappers

  ghost predicate AreBytes(bytes: seq<nat>) {
    forall i :: 0 <= i < |bytes| ==> bytes[i] < 256
  }

  /** Table 2 of RFC 4648: the URL and filename safe alphabet. */
  function CharOf(value: nat): (c: char)
    requires value < 64
    ensures c != '=' && ValueOf(c) == Some(value)
  {
    if value < 26 then ('A' as int + value) as char
    else if value < 52 then ('a' as int + value - 26) as char
    else if value < 62 then ('0' as int + value - 52) as char
    else if value == 62 then '-' else '_'
  }

  function ValueOf(c: char): (value: Option<nat>)
    ensures value.Some? ==> value.value < 64
  {
    if 'A' <= c <= 'Z' then Some(c as int - 'A' as int)
    else if 'a' <= c <= 'z' then Some(c as int - 'a' as int + 26)
    else if '0' <= c <= '9' then Some(c as int - '0' as int + 52)
    else if c == '-' then Some(62)
    else if c == '_' then Some(63)
    else None
  }

  /** The alphabet, spelled out. */
  lemma AlphabetIsTheTable(value: nat)
    requires value < 64
    ensures CharOf(value) == if value < 26 then "ABCDEFGHIJKLMNOPQRSTUVWXYZ"[value]
                             else if value < 52 then "abcdefghijklmnopqrstuvwxyz"[value - 26]
                             else "0123456789-_"[value - 52]
  {
  }

  /** Three bytes as four characters, and what one or two leftover bytes become. */
  function Quad(a: nat, b: nat, c: nat): (text: string)
    requires a < 256 && b < 256 && c < 256
    ensures |text| == 4 && text[3] != '='
  {
    [CharOf(a / 4), CharOf(a % 4 * 16 + b / 16), CharOf(b % 16 * 4 + c / 64), CharOf(c % 64)]
  }

  function Triple(a: nat, b: nat): (text: string)
    requires a < 256 && b < 256
    ensures |text| == 3 && text[2] != '='
  {
    [CharOf(a / 4), CharOf(a % 4 * 16 + b / 16), CharOf(b % 16 * 4)]
  }

  function Double(a: nat): (text: string)
    requires a < 256
    ensures |text| == 2 && text[1] != '='
  {
    [CharOf(a / 4), CharOf(a % 4 * 16)]
  }

  /** The encoding without its padding. */
  function Unpadded(bytes: seq<nat>): (text: string)
    requires AreBytes(bytes)
  {
    if bytes == [] then ""
    else if |bytes| == 1 then Double(bytes[0])
    else if |bytes| == 2 then Triple(bytes[0], bytes[1])
    else Quad(bytes[0], bytes[1], bytes[2]) + Unpadded(bytes[3..])
  }

  /** How many padding characters a message of this length needs. */
  function Pads(length: nat): (n: nat)
    ensures n <= 2
  {
    (3 - length % 3) % 3
  }

  function Equals(n: nat): string {
    seq(n, _ => '=')
  }

  function Encode(bytes: seq<nat>): string
    requires AreBytes(bytes)
  {
    Unpadded(bytes) + Equals(Pads(|bytes|))
  }

  /** Four sextets as three bytes. */
  function Joined(v0: nat, v1: nat, v2: nat, v3: nat): seq<nat> {
    [v0 * 4 + v1 / 16, v1 % 16 * 16 + v2 / 4, v2 % 4 * 64 + v3]
  }

  function Decode(text: string): Option<seq<nat>> {
    if text == "" then Some([])
    else if |text| < 4 then None
    else
      var v0, v1, v2, v3 := ValueOf(text[0]), ValueOf(text[1]), ValueOf(text[2]), ValueOf(text[3]);
      if v0.None? || v1.None? then None
      else if v2.None? then
        if |text| == 4 && text[2] == '=' && text[3] == '=' then Some([v0.value * 4 + v1.value / 16]) else None
      else if v3.None? then
        if |text| == 4 && text[3] == '=' then Some([v0.value * 4 + v1.value / 16, v1.value % 16 * 16 + v2.value / 4])
        else None
      else
        var rest := Decode(text[4..]);
        if rest.None? then None
        else Some(Joined(v0.value, v1.value, v2.value, v3.value) + rest.value)
  }

  lemma ThreeMoreBytes(length: nat)
    ensures Pads(length + 3) == Pads(length) && (length + 5) / 3 == (length + 2) / 3 + 1
  {
  }

  /** Three bytes, or what is left of three, make four characters with the padding. */
  lemma {:induction false} UnpaddedLength(bytes: seq<nat>)
    requires AreBytes(bytes)
    ensures |Unpadded(bytes)| + Pads(|bytes|) == 4 * ((|bytes| + 2) / 3)
  {
    if |bytes| > 2 {
      UnpaddedLength(bytes[3..]);
      ThreeMoreBytes(|bytes[3..]|);
    }
  }

  lemma PaddingByLength(length: nat, pads: nat, groups: nat)
    requires length + pads == 4 * groups && pads <= 2
    ensures (0 - length) % 4 == pads
  {
  }

  lemma {:induction false} UnpaddedEnd(bytes: seq<nat>)
    requires AreBytes(bytes) && bytes != []
    ensures var text := Unpadded(bytes); text != "" && text[|text| - 1] != '='
  {
    if |bytes| > 3 {
      UnpaddedEnd(bytes[3..]);
    }
  }

  lemma OneByte(a: nat)
    requires a < 256
    ensures Decode(Double(a) + "==") == Some([a])
  {
    var text := Double(a) + "==";
    assert text[0] == CharOf(a / 4) && text[1] == CharOf(a % 4 * 16) && text[2] == '=' && text[3] == '=';
  }

  lemma TwoSextetsAndAHalf(a: nat, b: nat)
    requires a < 256 && b < 256
    ensures var v0, v1, v2 := a / 4, a % 4 * 16 + b / 16, b % 16 * 4;
            v0 * 4 + v1 / 16 == a && v1 % 16 * 16 + v2 / 4 == b
  {
  }

  lemma TwoBytes(a: nat, b: nat)
    requires a < 256 && b < 256
    ensures Decode(Triple(a, b) + "=") == Some([a, b])
  {
    TwoSextetsAndAHalf(a, b);
    var text := Triple(a, b) + "=";
    assert ValueOf('=') == None;
    assert text[0] == CharOf(a / 4) && text[1] == CharOf(a % 4 * 16 + b / 16) && text[2] == CharOf(b % 16 * 4)
        && text[3] == '=';
  }

  lemma SextetsJoin(a: nat, b: nat, c: nat)
    requires a < 256 && b < 256 && c < 256
    ensures var v0, v1, v2, v3 := a / 4, a % 4 * 16 + b / 16, b % 16 * 4 + c / 64, c % 64;
            Joined(v0, v1, v2, v3) == [a, b, c]
  {
  }

  lemma FullGroup(group: string, rest: string)
    requires |group| == 4 && forall i :: 0 <= i < 4 ==> ValueOf(group[i]).Some?
    requires Decode(rest).Some?
    ensures Decode(group + rest) ==
            Some(Joined(ValueOf(group[0]).value, ValueOf(group[1]).value, ValueOf(group[2]).value,
                        ValueOf(group[3]).value) + Decode(rest).value)
  {
    var text := group + rest;
    assert text[4..] == rest;
    assert text[0] == group[0] && text[1] == group[1] && text[2] == group[2] && text[3] == group[3];
  }

  lemma ThreeBytes(a: nat, b: nat, c: nat, rest: string)
    requires a < 256 && b < 256 && c < 256 && Decode(rest).Some?
    ensures Decode(Quad(a, b, c) + rest) == Some([a, b, c] + Decode(rest).value)
  {
    SextetsJoin(a, b, c);
    FullGroup(Quad(a, b, c), rest);
  }

  lemma EncodeGroup(bytes: seq<nat>)
    requires AreBytes(bytes) && |bytes| > 2
    ensures Encode(bytes) == Quad(bytes[0], bytes[1], bytes[2]) + Encode(bytes[3..])
  {
    ThreeMoreBytes(|bytes[3..]|);
    var head, rest, padding := Quad(bytes[0], bytes[1], bytes[2]), Unpadded(bytes[3..]), Equals(Pads(|bytes|));
    assert (head + rest) + padding == head + (rest + padding);
  }

  lemma LastGroup(bytes: seq<nat>)
    requires AreBytes(bytes) && |bytes| <= 2
    ensures Decode(Encode(bytes)) == Some(bytes)
  {
    if |bytes| == 1 {
      assert Encode(bytes) == Double(bytes[0]) + "==";
      OneByte(bytes[0]);
      assert bytes == [bytes[0]];
    } else if |bytes| == 2 {
      assert Encode(bytes) == Triple(bytes[0], bytes[1]) + "=";
      TwoBytes(bytes[0], bytes[1]);
      assert bytes == [bytes[0], bytes[1]];
    }
  }

  lemma {:induction false} DecodeEncode(bytes: seq<nat>)
    requires AreBytes(bytes)
    ensures Decode(Encode(bytes)) == Some(bytes)
  {
    if |bytes| <= 2 {
      LastGroup(bytes);
    } else {
      DecodeEncode(bytes[3..]);
      EncodeGroup(bytes);
      ThreeBytes(bytes[0], bytes[1], bytes[2], Encode(bytes[3..]));
      assert bytes == [bytes[0], bytes[1], bytes[2]] + bytes[3..];
    }
  }

  /** `text.rstrip("=")`. */
  function Stripped(text: string): string {
    if text != "" && text[|text| - 1] == '=' then Stripped(text[..|text| - 1]) else text
  }

  function ToMultipleOfFour(length: nat): nat {
    (0 - length) % 4
  }

  /** `text + "=" * (-len(text) % 4)`. */
  function Restored(text: string): string {
    text + Equals(ToMultipleOfFour(|text|))
  }

  /** The padding that was stripped can be told from the length of what is left. */
  lemma PaddingIsKnownFromLength(bytes: seq<nat>)
    requires AreBytes(bytes)
    ensures ToMultipleOfFour(|Unpadded(bytes)|) == Pads(|bytes|)
  {
    UnpaddedLength(bytes);
    PaddingByLength(|Unpadded(bytes)|, Pads(|bytes|), (|bytes| + 2) / 3);
  }

  lemma {:induction false} StrippingPadding(text: string, n: nat)
    requires text != "" ==> text[|text| - 1] != '='
    ensures Stripped(text + Equals(n)) == text
  {
    var padded := text + Equals(n);
    if n > 0 {
      assert padded[..|padded| - 1] == text + Equals(n - 1);
      StrippingPadding(text, n - 1);
    } else {
      assert padded == text;
    }
  }

  /** Stripping the padding and restoring it by length gives the encoding back, so an unpadded token
      still decodes to the bytes it was made from. */
  lemma UnpaddedRoundTrip(bytes: seq<nat>)
    requires AreBytes(bytes)
    ensures Restored(Stripped(Encode(bytes))) == Encode(bytes)
    ensures Decode(Restored(Stripped(Encode(bytes)))) == Some(bytes)
  {
    PaddingIsKnownFromLength(bytes);
    if bytes != [] {
      UnpaddedEnd(bytes);
    }
    StrippingPadding(Unpadded(bytes), Pads(|bytes|));
    assert Stripped(Encode(bytes)) == Unpadded(bytes);
    DecodeEncode(bytes);
  }
}
