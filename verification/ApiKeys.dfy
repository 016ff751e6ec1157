/** API-key format, generation and prefix extraction (internal/auth/apikey.go). */
module ApiKeys {
  import opened Prelude
  import opened Text

  const PREFIX_LEN := 8
  const SECRET_LEN := 16
  const KEY_CHARS := "abcdefghijklmnopqrstuvwxyz0123456789"
  const SCHEME := "ll_"
  const BCRYPT_LIMIT := 72
  const HEX_DIGITS := "0123456789abcdef"

  type Byte = x: int | 0 <= x < 256

  datatype FormatError = InvalidFormat

  function ExtractAPIKeyPrefix(raw: string): Result<string, FormatError> {
    if !HasPrefix(raw, SCHEME) then Err(InvalidFormat)
    else
      var rest := raw[|SCHEME|..];
      var underscore := IndexOf(rest, '_');
      if underscore != PREFIX_LEN then Err(InvalidFormat)
      else Ok(SCHEME + rest[..underscore])
  }

  /** Exactly which strings are accepted, and what is returned for them. */
  lemma ExtractCharacterized(raw: string)
    ensures ExtractAPIKeyPrefix(raw).Ok? <==>
            |raw| > 11 && raw[..3] == SCHEME && raw[11] == '_' && '_' !in raw[3..11]
    ensures ExtractAPIKeyPrefix(raw).Ok? ==> ExtractAPIKeyPrefix(raw).value == raw[..11]
  {
    if HasPrefix(raw, SCHEME) {
      var rest := raw[3..];
      if |raw| > 11 {
        assert rest[..8] == raw[3..11];
        if raw[11] == '_' && '_' !in raw[3..11] {
          assert forall j :: 0 <= j < 8 ==> rest[j] == raw[3..11][j];
          IndexOfUnique(rest, '_', 8);
        }
        assert raw[..11] == raw[..3] + rest[..8];
      }
    }
  }

  function HexEncode(bytes: seq<Byte>): (s: string)
    ensures |s| == 2 * |bytes|
  {
    if bytes == [] then ""
    else [HEX_DIGITS[bytes[0] / 16], HEX_DIGITS[bytes[0] % 16]] + HexEncode(bytes[1..])
  }

  /** The digit's value, from the character codes. */
  function HexValue(c: char): int {
    if '0' <= c <= '9' then c as int - '0' as int else c as int - 'a' as int + 10
  }

  function HexDecode(s: string): seq<int> {
    if |s| < 2 then [] else [16 * HexValue(s[0]) + HexValue(s[1])] + HexDecode(s[2..])
  }

  lemma HexDigit(v: nat)
    requires v < 16
    ensures HexValue(HEX_DIGITS[v]) == v && ('0' <= HEX_DIGITS[v] <= '9' || 'a' <= HEX_DIGITS[v] <= 'f')
  {
    assert HEX_DIGITS[..10] == "0123456789" && HEX_DIGITS[10..] == "abcdef";
  }

  /** The digits of a secret are lower-case hexadecimal and say which secret it is. */
  lemma {:induction false} HexDecodes(bytes: seq<Byte>)
    ensures HexDecode(HexEncode(bytes)) == bytes
    ensures forall c :: c in HexEncode(bytes) ==> '0' <= c <= '9' || 'a' <= c <= 'f'
  {
    if bytes != [] {
      HexDigit(bytes[0] / 16);
      HexDigit(bytes[0] % 16);
      HexDecodes(bytes[1..]);
      assert HexEncode(bytes)[2..] == HexEncode(bytes[1..]);
    }
  }

  /** The characters a prefix is made of, by their number. */
  lemma KeyChars(d: nat)
    requires d < |KEY_CHARS|
    ensures KEY_CHARS[d] as int == if d < 26 then 'a' as int + d else '0' as int + d - 26
  {
    assert KEY_CHARS[..26] == "abcdefghijklmnopqrstuvwxyz" && KEY_CHARS[26..] == "0123456789";
  }

  /** Fills a buffer with the characters picked by `draws`, one per position. */
  method RandomString(length: nat, draws: seq<nat>) returns (s: string)
    requires |draws| == length && forall i :: 0 <= i < |draws| ==> draws[i] < |KEY_CHARS|
    ensures |s| == length && forall i :: 0 <= i < length ==> s[i] == KEY_CHARS[draws[i]]
  {
    var result := new char[length];
    var i := 0;
    while i < length
      invariant 0 <= i <= length
      invariant forall k :: 0 <= k < i ==> result[k] == KEY_CHARS[draws[k]]
    {
      result[i] := KEY_CHARS[draws[i]];
      i := i + 1;
    }
    s := result[..];
  }

  /** Every key of the documented shape gives back its own prefix. */
  lemma ExtractRecovers(prefixPart: string, secret: string)
    requires |prefixPart| == PREFIX_LEN && '_' !in prefixPart
    ensures ExtractAPIKeyPrefix(SCHEME + prefixPart + "_" + secret) == Ok(SCHEME + prefixPart)
  {
    var prefix := SCHEME + prefixPart;
    var raw := prefix + "_" + secret;
    assert raw[3..11] == prefixPart && raw[..11] == prefix;
    ExtractCharacterized(raw);
  }

  /**
   * Whatever the random draws are, the raw key has 44 characters, fits bcrypt's limit, and its own lookup prefix is
   * recovered from it. Character by character it is "ll_", a letter or digit per draw, "_" and the secret in
   * hexadecimal, so that different draws make different keys.
   */
  method GenerateAPIKey(draws: seq<nat>, secret: seq<Byte>) returns (raw: string, prefix: string)
    requires |draws| == PREFIX_LEN && forall i :: 0 <= i < |draws| ==> draws[i] < |KEY_CHARS|
    requires |secret| == SECRET_LEN
    ensures ExtractAPIKeyPrefix(raw) == Ok(prefix)
    ensures |raw| == 44 <= BCRYPT_LIMIT && |prefix| == 11
    ensures raw == "ll_" + raw[3..11] + "_" + raw[12..] && prefix == raw[..11]
    ensures forall i :: 0 <= i < 8 ==>
              raw[3 + i] as int == if draws[i] < 26 then 'a' as int + draws[i] else '0' as int + draws[i] - 26
    ensures HexDecode(raw[12..]) == secret && forall c :: c in raw[12..] ==> '0' <= c <= '9' || 'a' <= c <= 'f'
  {
    var prefixPart := RandomString(PREFIX_LEN, draws);
    prefix := SCHEME + prefixPart;
    raw := prefix + "_" + HexEncode(secret);
    forall i | 0 <= i < PREFIX_LEN
      ensures raw[3 + i] == prefixPart[i] && prefixPart[i] != '_'
      ensures prefixPart[i] as int == if draws[i] < 26 then 'a' as int + draws[i] else '0' as int + draws[i] - 26
    {
      KeyChars(draws[i]);
    }
    HexDecodes(secret);
    assert raw[12..] == HexEncode(secret);
    ExtractRecovers(prefixPart, HexEncode(secret));
  }
}
