/** randomString (src/support/randomString.ts): `floor(length / 2)` random
    bytes in lowercase hexadecimal (the Base16 encoding of section 8 of
    RFC 4648), cut to `length` characters. The random bytes are a parameter. */
module RandomNames {
  import opened Common

  newtype byte = x: int | 0 <= x < 256

  /** The length `randomString()` takes when called without one. */
  const DefaultLength := 10

  predicate IsHexDigit(c: char) {
    '0' <= c <= '9' || 'a' <= c <= 'f'
  }

  function HexDigit(n: int): (c: char)
    requires 0 <= n < 16
    ensures IsHexDigit(c)
  {
    if n < 10 then ('0' as int + n) as char else ('a' as int + n - 10) as char
  }

  function HexValue(c: char): (n: int)
    requires IsHexDigit(c)
    ensures 0 <= n < 16 && HexDigit(n) == c
  {
    if c <= '9' then c as int - '0' as int else c as int - 'a' as int + 10
  }

  /** `Buffer.toString("hex")`: two digits per byte, high half first. */
  function HexEncode(bytes: seq<byte>): (hex: string)
    ensures |hex| == 2 * |bytes|
    ensures forall i :: 0 <= i < |hex| ==> IsHexDigit(hex[i])
  {
    if bytes == [] then ""
    else [HexDigit(bytes[0] as int / 16), HexDigit(bytes[0] as int % 16)] + HexEncode(bytes[1..])
  }

  /** The bytes a lowercase hex string stands for; None if it has odd length
      or a character that is not a digit. */
  function HexDecode(hex: string): Option<seq<byte>>
    decreases |hex|
  {
    if hex == [] then Some([])
    else if |hex| == 1 || !IsHexDigit(hex[0]) || !IsHexDigit(hex[1]) then None
    else
      match HexDecode(hex[2..])
      case None => None
      case Some(rest) => Some([(HexValue(hex[0]) * 16 + HexValue(hex[1])) as byte] + rest)
  }

  /** Decoding the encoding gives back the bytes. */
  lemma {:induction false} HexRoundTrip(bytes: seq<byte>)
    ensures HexDecode(HexEncode(bytes)) == Some(bytes)
  {
    if bytes != [] {
      var b := bytes[0] as int;
      var hex := HexEncode(bytes);
      assert hex[2..] == HexEncode(bytes[1..]);
      HexRoundTrip(bytes[1..]);
      assert HexValue(hex[0]) == b / 16 && HexValue(hex[1]) == b % 16;
      assert bytes == [bytes[0]] + bytes[1..];
    }
  }

  /** randomString(length), drawing from `random`: `randomBytes` rejects a
      negative count, which `floor(length / 2)` is for a negative length
      (Dafny's `/` by a positive number rounds down, as Math.floor does). */
  function RandomString(length: int, random: seq<byte>): (r: Result<string>)
    requires length >= 0 ==> length / 2 <= |random|
    ensures length < 0 <==> r.Err?
    ensures r.Ok? ==>
      && |r.value| == 2 * (length / 2)
      && |r.value| <= length
      && (length % 2 == 1 ==> |r.value| == length - 1)
      && (forall i :: 0 <= i < |r.value| ==> IsHexDigit(r.value[i]))
      && HexDecode(r.value) == Some(random[..length / 2])
  {
    if length < 0 then Err(Plain("randomBytes: size out of range"))
    else
      var hex := HexEncode(random[..length / 2]);
      HexRoundTrip(random[..length / 2]);
      var cut := if length < |hex| then length else |hex|;
      assert hex[..cut] == hex;
      Ok(hex[..cut])
  }

  /** `randomString()` with the default length: five random bytes as ten
      lowercase hex characters. */
  lemma DefaultRandomString(random: seq<byte>)
    requires 5 <= |random|
    ensures var r := RandomString(DefaultLength, random);
      && r.Ok?
      && |r.value| == 10
      && (forall i :: 0 <= i < 10 ==> IsHexDigit(r.value[i]))
      && HexDecode(r.value) == Some(random[..5])
  {
  }
}
