/**
 The loops around btoa and atob: bytesToBase64, base64ToBytes and bytesToBase64Url
 (chat_e2ee_crypto.js), bufferToBase64URL and base64URLToBuffer (admin_security.js).
 */
module Base64Codecs {
  import opened Options
  import opened Base64

  const CHUNK := 0x8000

  /** String.fromCharCode applied to bytes. */
  function Latin1(bytes: seq<Byte>): (s: string)
    ensures |s| == |bytes|
  {
    seq(|bytes|, i requires 0 <= i < |bytes| => bytes[i] as char)
  }

  predicate IsLatin1(s: string) { forall i :: 0 <= i < |s| ==> s[i] as int < 256 }

  function Codes(s: string): (bytes: seq<Byte>)
    requires IsLatin1(s)
    ensures |bytes| == |s|
  {
    seq(|s|, i requires 0 <= i < |s| => s[i] as int)
  }

  /** btoa, which throws for a character above U+00FF. */
  function Btoa(binary: string): Option<string> {
    if IsLatin1(binary) then Some(Encode(Codes(binary))) else None
  }

  /** atob, which throws for a text that is no base64. */
  function Atob(text: string): (r: Option<string>)
    ensures r.Some? ==> IsLatin1(r.value)
  {
    match Decode(text)
    case None => None
    case Some(bytes) => Some(Latin1(bytes))
  }

  lemma CodesOfLatin1(bytes: seq<Byte>)
    ensures IsLatin1(Latin1(bytes)) && Codes(Latin1(bytes)) == bytes
  {
  }

  /** bytesToBase64: in chunks, yet the same as encoding the bytes at once. */
  method BytesToBase64(bytes: array<Byte>) returns (text: string)
    ensures text == Encode(bytes[..])
  {
    var binary, offset := "", 0;
    while offset < bytes.Length
      invariant 0 <= offset
      invariant binary == Latin1(bytes[..if offset < bytes.Length then offset else bytes.Length])
    {
      var end := if offset + CHUNK < bytes.Length then offset + CHUNK else bytes.Length;
      binary := binary + Latin1(bytes[offset..end]);
      assert bytes[..end] == bytes[..offset] + bytes[offset..end];
      offset := offset + CHUNK;
    }
    assert bytes[..bytes.Length] == bytes[..];
    CodesOfLatin1(bytes[..]);
    return Btoa(binary).value;
  }

  /** The loop that turns a binary string into bytes. */
  method BinaryToBytes(binary: string) returns (bytes: array<Byte>)
    requires IsLatin1(binary)
    ensures fresh(bytes) && bytes[..] == Codes(binary)
  {
    bytes := new Byte[|binary|];
    for index := 0 to |binary|
      invariant bytes[..index] == Codes(binary)[..index]
    {
      bytes[index] := binary[index] as int;
    }
    assert bytes[..] == bytes[..|binary|];
  }

  /** base64ToBytes; None is the exception of atob. */
  method Base64ToBytes(value: string) returns (ok: bool, bytes: array<Byte>)
    ensures ok == Decode(value).Some?
    ensures ok ==> fresh(bytes) && bytes[..] == Decode(value).value
  {
    var binary := Atob(value);
    if binary.None? {
      bytes := new Byte[0];
      return false, bytes;
    }
    CodesOfLatin1(Decode(value).value);
    bytes := BinaryToBytes(binary.value);
    return true, bytes;
  }

  /** bytesToBase64Url, which cuts the padding at the end. */
  method BytesToBase64Url(bytes: array<Byte>) returns (text: string)
    ensures text == UrlEncode(bytes[..])
  {
    text := BytesToBase64(bytes);
    UrlEncodersAgree(bytes[..]);
    text := WithoutFinalPadding(Replace(Replace(text, '+', '-'), '/', '_'));
  }

  /** bufferToBase64URL, which cuts every padding character. */
  method BufferToBase64URL(bytes: array<Byte>) returns (text: string)
    ensures text == UrlEncode(bytes[..])
  {
    var binary := "";
    for i := 0 to bytes.Length
      invariant binary == Latin1(bytes[..i])
    {
      binary := binary + [bytes[i] as char];
    }
    assert bytes[..bytes.Length] == bytes[..];
    CodesOfLatin1(bytes[..]);
    text := WithoutPadding(Replace(Replace(Btoa(binary).value, '+', '-'), '/', '_'));
  }

  /** base64URLToBuffer. */
  method Base64URLToBuffer(base64url: string) returns (ok: bool, bytes: array<Byte>)
    ensures ok == UrlDecode(base64url).Some?
    ensures ok ==> fresh(bytes) && bytes[..] == UrlDecode(base64url).value
  {
    var padding := seq((4 - |base64url| % 4) % 4, _ => '=');
    var base64 := Replace(Replace(base64url, '-', '+'), '_', '/') + padding;
    assert base64 == Restored(base64url);
    ok, bytes := Base64ToBytes(base64);
  }
}
