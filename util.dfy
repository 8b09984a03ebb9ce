/** The identifier helpers of util.go: the random bridge hardware address
    and the random host-side interface suffix. The random source is an
    input: the bytes `rand.Read` would fill in, and the values `rand.Intn`
    would draw. */
module Util {
  import opened Cni

  /** A byte as Go's `byte`: a value from 0 to 255. */
  newtype byte = x: int | 0 <= x < 256

  const Lower: string := "abcdefghijklmnopqrstuvwxyz"
  const Upper: string := "ABCDEFGHIJKLMNOPQRSTUVWXYZ"
  const Digits: string := "1234567890"

  /** The alphabet of random interface names (letterBytes), spelled as its
      three runs: lower-case letters, upper-case letters, digits. */
  const LetterBytes: string := Lower + Upper + Digits

  predicate IsLetter(c: char)
  {
    'a' <= c <= 'z' || 'A' <= c <= 'Z' || '0' <= c <= '9'
  }

  /** The alphabet has 62 characters, each a lower-case or upper-case ASCII
      letter or a decimal digit. */
  lemma LetterBytesAlphabet()
    ensures |LetterBytes| == 62
    ensures forall i :: 0 <= i < |LetterBytes| ==> IsLetter(LetterBytes[i])
  {
    assert forall i :: 0 <= i < |Lower| ==> 'a' <= Lower[i] <= 'z';
    assert forall i :: 0 <= i < |Upper| ==> 'A' <= Upper[i] <= 'Z';
    assert forall i :: 0 <= i < |Digits| ==> '0' <= Digits[i] <= '9';
  }

  /** The string of the alphabet characters at the drawn indices, in draw
      order: what randStringBytes yields for those draws. */
  function RandomLetters(draws: seq<nat>): (s: string)
    requires forall i :: 0 <= i < |draws| ==> draws[i] < |LetterBytes|
    ensures |s| == |draws|
    ensures forall i :: 0 <= i < |s| ==> s[i] == LetterBytes[draws[i]]
  {
    if |draws| == 0 then [] else RandomLetters(draws[..|draws| - 1]) + [LetterBytes[draws[|draws| - 1]]]
  }

  /** randStringBytes(n): fills a fresh buffer of `n` characters, the i-th
      being the alphabet character at the i-th drawn index. `draws` are the
      results of the `n` calls rand.Intn(62), each below 62. Every
      character is a letter or a digit. */
  method RandStringBytes(n: nat, draws: seq<nat>) returns (s: string)
    requires |draws| == n
    requires forall i :: 0 <= i < n ==> draws[i] < |LetterBytes|
    ensures s == RandomLetters(draws)
    ensures forall i :: 0 <= i < n ==> IsLetter(s[i])
  {
    LetterBytesAlphabet();
    var b := new char[n];
    for i := 0 to n
      invariant forall j :: 0 <= j < i ==> b[j] == LetterBytes[draws[j]]
    {
      b[i] := LetterBytes[draws[i]];
    }
    s := b[..];
    assert s == RandomLetters(draws);
  }

  predicate IsHexDigit(c: char)
  {
    '0' <= c <= '9' || 'a' <= c <= 'f'
  }

  /** The lower-case hexadecimal digit of a value below 16. */
  function HexDigit(d: nat): (c: char)
    requires d < 16
    ensures IsHexDigit(c)
  {
    if d < 10 then ('0' as int + d) as char else ('a' as int + d - 10) as char
  }

  /** The value of a lower-case hexadecimal digit. */
  function HexValue(c: char): (d: nat)
    requires IsHexDigit(c)
    ensures d < 16 && HexDigit(d) == c
  {
    if c <= '9' then c as int - '0' as int else c as int - 'a' as int + 10
  }

  lemma HexDigitValue(d: nat)
    requires d < 16
    ensures HexValue(HexDigit(d)) == d
  {
  }

  /** A byte as fmt's "%02x" prints it: two lower-case hexadecimal digits. */
  function HexByte(b: byte): string
  {
    [HexDigit(b as int / 16), HexDigit(b as int % 16)]
  }

  /** The byte two hexadecimal digits denote. */
  function PairValue(hi: char, lo: char): byte
    requires IsHexDigit(hi) && IsHexDigit(lo)
  {
    (HexValue(hi) * 16 + HexValue(lo)) as byte
  }

  /** Printing a byte as two digits and reading them back gives the byte. */
  lemma HexByteRoundTrip(b: byte)
    ensures IsHexDigit(HexByte(b)[0]) && IsHexDigit(HexByte(b)[1])
    ensures PairValue(HexByte(b)[0], HexByte(b)[1]) == b
  {
    HexDigitValue(b as int / 16);
    HexDigitValue(b as int % 16);
  }

  /** Reading two digits and printing the byte gives the same two digits. */
  lemma PairValueRoundTrip(hi: char, lo: char)
    requires IsHexDigit(hi) && IsHexDigit(lo)
    ensures HexByte(PairValue(hi, lo)) == [hi, lo]
  {
    var h, l := HexValue(hi), HexValue(lo);
    assert (h * 16 + l) / 16 == h && (h * 16 + l) % 16 == l;
  }

  /** The bytes printed with "%02x" each and separated by ':'. */
  function HexGroups(b: seq<byte>): (s: string)
    requires |b| > 0
    ensures |s| == 3 * |b| - 1
  {
    if |b| == 1 then HexByte(b[0]) else HexByte(b[0]) + ":" + HexGroups(b[1..])
  }

  /** `s` is `n` groups of two lower-case hexadecimal digits separated by ':'. */
  predicate IsHexGroups(s: string, n: nat)
  {
    n > 0 && |s| >= 2 && IsHexDigit(s[0]) && IsHexDigit(s[1]) &&
    if n == 1 then |s| == 2 else |s| > 2 && s[2] == ':' && IsHexGroups(s[3..], n - 1)
  }

  /** The bytes the groups of `s` denote, in order. */
  function ParseHexGroups(s: string, n: nat): (b: seq<byte>)
    requires IsHexGroups(s, n)
    ensures |b| == n
  {
    [PairValue(s[0], s[1])] + if n == 1 then [] else ParseHexGroups(s[3..], n - 1)
  }

  lemma {:induction false} HexGroupsRoundTrip(b: seq<byte>)
    requires |b| > 0
    ensures IsHexGroups(HexGroups(b), |b|)
    ensures ParseHexGroups(HexGroups(b), |b|) == b
    decreases |b|
  {
    HexByteRoundTrip(b[0]);
    if |b| > 1 {
      HexGroupsRoundTrip(b[1..]);
      assert HexGroups(b)[3..] == HexGroups(b[1..]);
      assert b == [b[0]] + b[1..];
    }
  }

  lemma {:induction false} ParseHexGroupsRoundTrip(s: string, n: nat)
    requires IsHexGroups(s, n)
    ensures HexGroups(ParseHexGroups(s, n)) == s
    decreases n
  {
    PairValueRoundTrip(s[0], s[1]);
    var b := ParseHexGroups(s, n);
    if n > 1 {
      ParseHexGroupsRoundTrip(s[3..], n - 1);
      assert b[1..] == ParseHexGroups(s[3..], n - 1);
      assert s == [s[0], s[1]] + ":" + s[3..];
    } else {
      assert s == [s[0], s[1]];
    }
  }

  /** Six bytes as "%02x:%02x:%02x:%02x:%02x:%02x" prints them. */
  function FormatMac(b: seq<byte>): string
    requires |b| == 6
  {
    HexGroups(b)
  }

  /** A hardware address in text: six groups of two lower-case hexadecimal
      digits separated by ':', 17 characters in all. */
  predicate IsMacText(s: string)
  {
    IsHexGroups(s, 6)
  }

  /** Reads the six bytes back from a hardware address in text; the
      reference against which FormatMac is checked. */
  function ParseMac(s: string): Option<seq<byte>>
  {
    if IsMacText(s) then Some(ParseHexGroups(s, 6)) else None
  }

  /** The formatted address is 17 characters of lower-case hex groups and
      colons, and parsing it gives back the bytes in order. */
  lemma FormatMacRoundTrip(b: seq<byte>)
    requires |b| == 6
    ensures |FormatMac(b)| == 17 && IsMacText(FormatMac(b))
    ensures ParseMac(FormatMac(b)) == Some(b)
  {
    HexGroupsRoundTrip(b);
  }

  /** Every well-formed address text is the formatting of its parse. */
  lemma ParseMacRoundTrip(s: string)
    requires IsMacText(s)
    ensures ParseMac(s).Some? && FormatMac(ParseMac(s).value) == s
  {
    ParseHexGroupsRoundTrip(s, 6);
  }

  /** `b | 2`: the byte with its bit 0x02 set, written in arithmetic on
      the byte's value. */
  function SetBit1(b: byte): byte
  {
    if b % 4 >= 2 then b else b + 2
  }

  /** Setting bit 0x02 turns that bit on and leaves bit 0x01 and the six
      bits above it as they were. */
  lemma SetBit1Bits(b: byte)
    ensures SetBit1(b) / 2 % 2 == 1
    ensures SetBit1(b) % 2 == b % 2
    ensures SetBit1(b) / 4 == b / 4
  {
  }

  /** The bytes with the locally-administered bit (0x02 of the first byte)
      forced on. */
  function LocallyAdministered(raw: seq<byte>): (b: seq<byte>)
    requires |raw| == 6
    ensures |b| == 6
  {
    [SetBit1(raw[0])] + raw[1..]
  }

  /** Forcing the locally-administered bit changes nothing else: the
      multicast bit 0x01, the other bits of the first byte and the five
      other bytes are those drawn. */
  lemma LocallyAdministeredBits(raw: seq<byte>)
    requires |raw| == 6
    ensures LocallyAdministered(raw)[0] / 2 % 2 == 1
    ensures LocallyAdministered(raw)[0] % 2 == raw[0] % 2
    ensures LocallyAdministered(raw)[0] / 4 == raw[0] / 4
    ensures LocallyAdministered(raw)[1..] == raw[1..]
  {
    SetBit1Bits(raw[0]);
  }

  /** What generateMac yields for the outcome of reading the random bytes. */
  function MacOutcome(read: Result<seq<byte>>): Result<string>
    requires read.Success? ==> |read.value| == 6
  {
    match read
    case Failure(e) => Failure(e)
    case Success(raw) => Success(FormatMac(LocallyAdministered(raw)))
  }

  /** generateMac: reads six random bytes into a buffer, sets the
      locally-administered bit of the first one in place and formats the
      buffer. A failed read gives "" and the read's error. */
  method GenerateMac(read: Result<seq<byte>>) returns (mac: string, err: Option<Error>)
    requires read.Success? ==> |read.value| == 6
    ensures read.Failure? ==> mac == "" && err == Some(read.error)
    ensures read.Success? ==> err == None && IsMacText(mac)
    ensures read.Success? ==> ParseMac(mac) == Some(LocallyAdministered(read.value))
    ensures read.Success? ==> MacOutcome(read) == Success(mac)
  {
    var buf := new byte[6];
    match read {
      case Failure(e) =>
        return "", Some(e);
      case Success(raw) =>
        forall i | 0 <= i < 6 {
          buf[i] := raw[i];
        }
    }
    buf[0] := SetBit1(buf[0]);
    assert buf[..] == LocallyAdministered(read.value);
    mac, err := FormatMac(buf[..]), None;
    FormatMacRoundTrip(buf[..]);
  }
}
