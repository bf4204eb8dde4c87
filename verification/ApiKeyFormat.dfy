/**
 API keys as they are stored (ai-model-router.service.ts): `enc:v1:` then the nonce, the tag and the
 encrypted text in unpadded base64url (section 5 of RFC 4648), separated by colons. The cipher is a
 parameter, assumed to open what it sealed.
 */
module ApiKeyFormat {
  import opened Strings
  import opened Wrappers

  type Byte = b: int | 0 <= b < 256

  type Bytes = seq<Byte>

  // ----- base64url -----

  type Sextet = v: int | 0 <= v < 64

  function Letter(v: Sextet): char {
    if v < 26 then ('A' as int + v) as char
    else if v < 52 then ('a' as int + v - 26) as char
    else if v < 62 then ('0' as int + v - 52) as char
    else if v == 62 then '-' else '_'
  }

  /** Both alphabets are read; any other character is skipped. */
  function Value(c: char): Option<Sextet> {
    if 'A' <= c <= 'Z' then Some(c as int - 'A' as int)
    else if 'a' <= c <= 'z' then Some(c as int - 'a' as int + 26)
    else if '0' <= c <= '9' then Some(c as int - '0' as int + 52)
    else if c == '-' || c == '+' then Some(62)
    else if c == '_' || c == '/' then Some(63)
    else None
  }

  function Values(s: string): seq<Sextet> {
    if s == [] then [] else (if Value(s[0]).Some? then [Value(s[0]).value] else []) + Values(s[1..])
  }

  function Letters(vs: seq<Sextet>): (r: string)
    ensures |r| == |vs|
  {
    if vs == [] then [] else [Letter(vs[0])] + Letters(vs[1..])
  }

  /** Three bytes are four groups of six bits; the last ones are filled with zeros. */
  function Groups(bs: Bytes): seq<Sextet> {
    if bs == [] then []
    else if |bs| == 1 then [bs[0] / 4, bs[0] % 4 * 16]
    else if |bs| == 2 then [bs[0] / 4, bs[0] % 4 * 16 + bs[1] / 16, bs[1] % 16 * 4]
    else [bs[0] / 4, bs[0] % 4 * 16 + bs[1] / 16, bs[1] % 16 * 4 + bs[2] / 64, bs[2] % 64] + Groups(bs[3..])
  }

  function First(v: int, w: int): Byte
    requires 0 <= v < 64 && 0 <= w < 64
  {
    v * 4 + w / 16
  }

  function Second(v: int, w: int): Byte
    requires 0 <= v < 64 && 0 <= w < 64
  {
    v % 16 * 16 + w / 4
  }

  function Third(v: int, w: int): Byte
    requires 0 <= v < 64 && 0 <= w < 64
  {
    v % 4 * 64 + w
  }

  function Ungroup(vs: seq<Sextet>): Bytes {
    if |vs| <= 1 then []
    else if |vs| == 2 then [First(vs[0], vs[1])]
    else if |vs| == 3 then [First(vs[0], vs[1]), Second(vs[1], vs[2])]
    else [First(vs[0], vs[1]), Second(vs[1], vs[2]), Third(vs[2], vs[3])] + Ungroup(vs[4..])
  }

  function Encode(bs: Bytes): string {
    Letters(Groups(bs))
  }

  function Decode(s: string): Bytes {
    Ungroup(Values(s))
  }

  /** Six bits of one byte and two of the next, and so on, are those bytes. */
  lemma {:induction false} BitsAreBytes(a: Byte, b: Byte, c: Byte)
    ensures First(a / 4, a % 4 * 16) == a && First(a / 4, a % 4 * 16 + b / 16) == a
    ensures Second(a % 4 * 16 + b / 16, b % 16 * 4) == b && Second(a % 4 * 16 + b / 16, b % 16 * 4 + c / 64) == b
    ensures Third(b % 16 * 4 + c / 64, c % 64) == c
  {
  }

  lemma {:induction false} UngroupGroups(bs: Bytes)
    ensures Ungroup(Groups(bs)) == bs
  {
    hide First, Second, Third;
    if |bs| > 2 {
      UngroupGroups(bs[3..]);
      BitsAreBytes(bs[0], bs[1], bs[2]);
      assert Groups(bs)[4..] == Groups(bs[3..]);
      assert bs == [bs[0], bs[1], bs[2]] + bs[3..];
    } else if |bs| == 2 {
      BitsAreBytes(bs[0], bs[1], 0);
      assert bs == [bs[0], bs[1]];
    } else if |bs| == 1 {
      BitsAreBytes(bs[0], 0, 0);
      assert bs == [bs[0]];
    }
  }

  predicate NoColon(s: string) {
    forall i :: 0 <= i < |s| ==> s[i] != ':' && !Space(s[i])
  }

  lemma {:induction false} ValuesOfLetters(vs: seq<Sextet>)
    ensures Values(Letters(vs)) == vs && NoColon(Letters(vs))
  {
    if vs != [] { ValuesOfLetters(vs[1..]); }
  }

  /** Decoding gives the bytes back, and the text holds neither colon nor blank. */
  lemma {:induction false} EncodingIsFaithful(bs: Bytes)
    ensures Decode(Encode(bs)) == bs && NoColon(Encode(bs))
  {
    ValuesOfLetters(Groups(bs));
    UngroupGroups(bs);
  }

  // ----- the cipher -----

  datatype Sealed = Sealed(tag: Bytes, data: Bytes)

  /** `unseal` gives nothing when the tag is not right. */
  datatype Cipher = Cipher(encrypt: (Bytes, Bytes, string) -> Sealed, unseal: (Bytes, Bytes, Sealed) -> Option<string>)

  ghost predicate Inverts(cipher: Cipher) {
    forall key, iv, text :: cipher.unseal(key, iv, cipher.encrypt(key, iv, text)) == Some(text)
  }

  // ----- the format -----

  const PREFIX := "enc:v1:"

  predicate Prefixed(s: string) {
    PREFIX <= s
  }

  /** `Refused` when no secret is configured. */
  datatype Stored = Stored(text: string) | Refused

  function Format(iv: Bytes, s: Sealed): string {
    PREFIX + Encode(iv) + ":" + Encode(s.tag) + ":" + Encode(s.data)
  }

  /** `protectApiKey`; the nonce is drawn by the caller. */
  function Protect(cipher: Cipher, key: Option<Bytes>, iv: Bytes, value: string): Stored {
    var plain := Trim(value);
    if plain == [] || Prefixed(plain) then Stored(plain)
    else if key.None? then Refused
    else Stored(Format(iv, cipher.encrypt(key.value, iv, plain)))
  }

  /** `value.split(':')` */
  function Fields(s: string): (r: seq<string>)
    ensures r != []
  {
    if s == [] then [[]]
    else
      var rest := Fields(s[1..]);
      if s[0] == ':' then [[]] + rest else [[s[0]] + rest[0]] + rest[1..]
  }

  /** `revealApiKey`; a text that is not in the format was stored before it. */
  function Reveal(cipher: Cipher, key: Option<Bytes>, value: string): Option<string> {
    if value == [] then None
    else if !Prefixed(value) then Some(value)
    else if key.None? then None
    else
      var f := Fields(value);
      if |f| < 5 then None else cipher.unseal(key.value, Decode(f[2]), Sealed(Decode(f[3]), Decode(f[4])))
  }

  lemma {:induction false} FieldThen(a: string, rest: string)
    requires NoColon(a)
    ensures Fields(a + [':'] + rest) == [a] + Fields(rest)
  {
    var s := a + [':'] + rest;
    if a == [] {
      assert s == [':'] + rest && s[1..] == rest;
    } else {
      assert s[1..] == a[1..] + [':'] + rest && s[0] == a[0];
      FieldThen(a[1..], rest);
      assert [a[0]] + a[1..] == a;
    }
  }

  lemma {:induction false} LastField(a: string)
    requires NoColon(a)
    ensures Fields(a) == [a]
  {
    if a != [] {
      LastField(a[1..]);
      assert [a[0]] + a[1..] == a;
    }
  }

  /** The five fields of a protected key. */
  lemma {:induction false} FormatFields(iv: Bytes, s: Sealed)
    ensures Prefixed(Format(iv, s)) && Fields(Format(iv, s)) == ["enc", "v1", Encode(iv), Encode(s.tag), Encode(s.data)]
  {
    hide Encode, Fields;
    EncodingIsFaithful(iv);
    EncodingIsFaithful(s.tag);
    EncodingIsFaithful(s.data);
    var a, b, c := Encode(iv), Encode(s.tag), Encode(s.data);
    LastField(c);
    FieldThen(b, c);
    FieldThen(a, b + [':'] + c);
    FieldThen("v1", a + [':'] + (b + [':'] + c));
    FieldThen("enc", "v1" + [':'] + (a + [':'] + (b + [':'] + c)));
    FormatShape(a, b, c);
  }

  lemma {:induction false} FormatShape(a: string, b: string, c: string)
    ensures PREFIX + a + ":" + b + ":" + c == "enc" + [':'] + ("v1" + [':'] + (a + [':'] + (b + [':'] + c)))
    ensures PREFIX <= PREFIX + a + ":" + b + ":" + c
  {
  }

  /** With a secret, revealing a protected key gives the trimmed key back. */
  lemma {:induction false} RevealProtected(cipher: Cipher, key: Bytes, iv: Bytes, value: string)
    requires Inverts(cipher) && Trim(value) != [] && !Prefixed(Trim(value))
    ensures var stored := Protect(cipher, Some(key), iv, value);
      && stored.Stored?
      && Reveal(cipher, Some(key), stored.text) == Some(Trim(value))
  {
    hide Encode, Decode, Fields, Format, Trim;
    var s := cipher.encrypt(key, iv, Trim(value));
    FormatFields(iv, s);
    EncodingIsFaithful(iv);
    EncodingIsFaithful(s.tag);
    EncodingIsFaithful(s.data);
    assert Sealed(s.tag, s.data) == s;
  }

  /** What is sealed is at least as long as the text: UTF-8 needs a byte for each character. */
  ghost predicate Sized(cipher: Cipher) {
    forall key, iv, s, text :: cipher.unseal(key, iv, s) == Some(text) ==> |text| <= |s.data|
  }

  lemma {:induction false} FieldIsShorter(s: string, i: nat)
    requires i < |Fields(s)|
    ensures |Fields(s)[i]| + |Fields(s)| <= |s| + 1
  {
    if s != [] {
      var rest := Fields(s[1..]);
      if s[0] == ':' {
        FieldIsShorter(s[1..], if i == 0 then 0 else i - 1);
      } else {
        FieldIsShorter(s[1..], i);
        assert Fields(s) == [[s[0]] + rest[0]] + rest[1..];
      }
    }
  }

  lemma {:induction false} DecodedSize(s: string)
    ensures |Decode(s)| <= |s|
  {
    ValuesSize(s);
    UngroupSize(Values(s));
  }

  lemma {:induction false} ValuesSize(s: string)
    ensures |Values(s)| <= |s|
  {
    hide Value;
    if s != [] { ValuesSize(s[1..]); }
  }

  lemma {:induction false} UngroupSize(vs: seq<Sextet>)
    ensures |Ungroup(vs)| <= |vs|
  {
    hide First, Second, Third;
    if |vs| > 3 { UngroupSize(vs[4..]); }
  }

  /** A protected text does not open as itself. */
  lemma {:induction false} NeverItself(cipher: Cipher, key: Option<Bytes>, text: string)
    requires Sized(cipher) && Prefixed(text)
    ensures Reveal(cipher, key, text) != Some(text)
  {
    hide Fields, Decode, Prefixed;
    var f := Fields(text);
    if key.Some? && |f| >= 5 {
      FieldIsShorter(text, 4);
      DecodedSize(f[4]);
    }
  }

  /**
   Revealing what was stored gives the trimmed key back exactly when it is not empty and does not start like a
   protected one.
   */
  lemma {:induction false} RevealGivesKeyIff(cipher: Cipher, key: Option<Bytes>, iv: Bytes, value: string)
    requires Inverts(cipher) && Sized(cipher) && Protect(cipher, key, iv, value).Stored?
    ensures Reveal(cipher, key, Protect(cipher, key, iv, value).text) == Some(Trim(value))
      <==> Trim(value) != [] && !Prefixed(Trim(value))
  {
    hide Inverts, Sized, Trim, Format, Fields, Decode, Prefixed;
    var plain := Trim(value);
    if plain != [] && !Prefixed(plain) {
      RevealProtected(cipher, key.value, iv, value);
    } else if plain != [] {
      NeverItself(cipher, key, plain);
    }
  }

  /** A text is revealed as it is, secret or not, exactly when it is not empty and does not look protected. */
  lemma {:induction false} RevealsAsIsIff(cipher: Cipher, key: Option<Bytes>, text: string)
    requires Sized(cipher)
    ensures Reveal(cipher, key, text) == Some(text) <==> text != [] && !Prefixed(text)
  {
    hide Prefixed;
    if Prefixed(text) { NeverItself(cipher, key, text); }
  }

  lemma {:induction false} TrimNothing(s: string)
    requires s != [] && !Space(s[0]) && !Space(s[|s| - 1])
    ensures Trim(s) == s
  {
  }

  /** Protecting a key twice is protecting it once, with or without a secret the second time. */
  lemma {:induction false} ProtectTwice(cipher: Cipher, key: Option<Bytes>, key2: Option<Bytes>, iv: Bytes, iv2: Bytes,
          value: string)
    requires Protect(cipher, key, iv, value).Stored?
    ensures var stored := Protect(cipher, key, iv, value); Protect(cipher, key2, iv2, stored.text) == stored
  {
    hide Encode;
    var plain := Trim(value);
    if plain == [] || Prefixed(plain) {
      if plain != [] { TrimmedEnds(value); TrimNothing(plain); } else { assert Trim([]) == []; }
    } else {
      var s := cipher.encrypt(key.value, iv, plain);
      var text := Format(iv, s);
      FormatFields(iv, s);
      EncodingIsFaithful(s.data);
      assert text[0] == 'e'
        && text[|text| - 1] == if Encode(s.data) == [] then ':' else Encode(s.data)[|Encode(s.data)| - 1];
      TrimNothing(text);
    }
  }

  lemma {:induction false} TrimmedEnds(value: string)
    requires Trim(value) != []
    ensures !Space(Trim(value)[0]) && !Space(Trim(value)[|Trim(value)| - 1])
  {
    if TrimEnd(value) != [] { TrimStartKeepsEnd(TrimEnd(value)); }
  }

  /** A key that starts like a protected one is stored as it is, secret or not, and can be read only if it is one. */
  lemma {:induction false} PrefixedKeyIsNotProtected(cipher: Cipher, key: Option<Bytes>, iv: Bytes, value: string)
    requires Prefixed(Trim(value))
    ensures Protect(cipher, key, iv, value) == Stored(Trim(value))
    ensures |Fields(Trim(value))| < 5 ==> Reveal(cipher, key, Trim(value)) == None
  {
  }
}
