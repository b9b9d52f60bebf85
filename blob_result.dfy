/**
 * `BlobResult`: the 200 response for a downloaded blob. Its content type is
 * the blob's stored content type and its entity tag is the blob's MD5 hash
 * written as uppercase hexadecimal (format "X2" per byte) in double quotes.
 */
module BlobResult {
  import opened Wrappers

  newtype byte = b: int | 0 <= b < 256

  /** The file result: content type and entity tag (the content stream is not modelled). */
  datatype BlobResult = BlobResult(contentType: string, entityTag: string)

  predicate IsUpperHexDigit(c: char) {
    '0' <= c <= '9' || 'A' <= c <= 'F'
  }

  /** The uppercase hexadecimal digit for a nibble. */
  function HexDigit(n: int): (c: char)
    requires 0 <= n < 16
    ensures IsUpperHexDigit(c)
  {
    if n < 10 then (48 + n) as char else (55 + n) as char
  }

  /** The nibble an uppercase hexadecimal digit stands for. */
  function HexValue(c: char): (n: int)
    requires IsUpperHexDigit(c)
    ensures 0 <= n < 16
    ensures HexDigit(n) == c
  {
    if c <= '9' then c as int - 48 else c as int - 55
  }

  /** One byte formatted with "X2": high nibble, then low nibble. */
  function ByteHex(b: byte): (s: string)
    ensures |s| == 2 && IsUpperHexDigit(s[0]) && IsUpperHexDigit(s[1])
    ensures HexValue(s[0]) == b as int / 16 && HexValue(s[1]) == b as int % 16
  {
    [HexDigit(b as int / 16), HexDigit(b as int % 16)]
  }

  /** The hexadecimal string of a byte sequence, built as the source appends it: left to right. */
  function Hex(raw: seq<byte>): (s: string)
    ensures |s| == 2 * |raw|
    ensures forall k :: 0 <= k < |s| ==> IsUpperHexDigit(s[k])
  {
    if raw == [] then "" else Hex(raw[..|raw| - 1]) + ByteHex(raw[|raw| - 1])
  }

  /** Characters 2i and 2i+1 of the encoding are the high and low nibble of byte i. */
  lemma {:induction false} HexAt(raw: seq<byte>, i: int)
    requires 0 <= i < |raw|
    ensures Hex(raw)[2 * i] == HexDigit(raw[i] as int / 16)
    ensures Hex(raw)[2 * i + 1] == HexDigit(raw[i] as int % 16)
  {
    var init := raw[..|raw| - 1];
    if i < |raw| - 1 {
      HexAt(init, i);
    }
  }

  /** The byte two uppercase hexadecimal digits stand for, high nibble first. */
  function ByteOf(hi: char, lo: char): byte
    requires IsUpperHexDigit(hi) && IsUpperHexDigit(lo)
  {
    (HexValue(hi) * 16 + HexValue(lo)) as byte
  }

  /** Decodes an uppercase hexadecimal string, two digits per byte; None if it is not one. */
  function UnHex(s: string): (r: Option<seq<byte>>)
    ensures r.Some? ==> 2 * |r.value| == |s|
  {
    if s == [] then Some([])
    else if |s| < 2 || !IsUpperHexDigit(s[|s| - 2]) || !IsUpperHexDigit(s[|s| - 1]) then None
    else
      match UnHex(s[..|s| - 2])
      case None => None
      case Some(init) => Some(init + [ByteOf(s[|s| - 2], s[|s| - 1])])
  }

  /** Formatting a byte and reading its digits back gives the byte. */
  lemma ByteOfByteHex(b: byte)
    ensures ByteOf(ByteHex(b)[0], ByteHex(b)[1]) == b
  {
  }

  /** Reading two digits as a byte and formatting it gives the digits. */
  lemma ByteHexByteOf(hi: char, lo: char)
    requires IsUpperHexDigit(hi) && IsUpperHexDigit(lo)
    ensures ByteHex(ByteOf(hi, lo)) == [hi, lo]
  {
    var h, l := HexValue(hi), HexValue(lo);
    assert (h * 16 + l) / 16 == h && (h * 16 + l) % 16 == l;
  }

  /** Decoding a string with two more digits decodes one more byte. */
  lemma UnHexAppend(prefix: string, hi: char, lo: char)
    requires IsUpperHexDigit(hi) && IsUpperHexDigit(lo)
    ensures UnHex(prefix + [hi, lo])
         == if UnHex(prefix).None? then None else Some(UnHex(prefix).value + [ByteOf(hi, lo)])
  {
  }

  /** Encoding one more byte appends its two digits. */
  lemma HexAppend(init: seq<byte>, b: byte)
    ensures Hex(init + [b]) == Hex(init) + ByteHex(b)
  {
  }

  /** Decoding the encoding gives back the bytes. */
  lemma {:induction false} UnHexHex(raw: seq<byte>)
    ensures UnHex(Hex(raw)) == Some(raw)
  {
    if raw != [] {
      var init, last := raw[..|raw| - 1], raw[|raw| - 1];
      var digits := ByteHex(last);
      assert raw == init + [last];
      HexAppend(init, last);
      assert digits == [digits[0], digits[1]];
      UnHexHex(init);
      UnHexAppend(Hex(init), digits[0], digits[1]);
      ByteOfByteHex(last);
    }
  }

  /** Whatever decodes was the encoding of what it decodes to. */
  lemma {:induction false} HexUnHex(s: string, raw: seq<byte>)
    requires UnHex(s) == Some(raw)
    ensures Hex(raw) == s
  {
    if s != [] {
      var prefix, hi, lo := s[..|s| - 2], s[|s| - 2], s[|s| - 1];
      assert s == prefix + [hi, lo];
      UnHexAppend(prefix, hi, lo);
      var init := UnHex(prefix).value;
      assert raw == init + [ByteOf(hi, lo)];
      HexUnHex(prefix, init);
      HexAppend(init, ByteOf(hi, lo));
      ByteHexByteOf(hi, lo);
    }
  }

  /** The encoding is injective: distinct hashes give distinct tags. */
  lemma HexInjective(a: seq<byte>, b: seq<byte>)
    requires Hex(a) == Hex(b)
    ensures a == b
  {
    UnHexHex(a);
    UnHexHex(b);
  }

  /** `FormatMd5Bytes`: append each byte's two digits to a string builder. */
  method FormatMd5Bytes(raw: seq<byte>) returns (hex: string)
    ensures hex == Hex(raw)
    ensures |hex| == 2 * |raw|
    ensures forall i :: 0 <= i < |raw| ==>
      hex[2 * i] == HexDigit(raw[i] as int / 16) && hex[2 * i + 1] == HexDigit(raw[i] as int % 16)
  {
    var sb := "";
    for i := 0 to |raw|
      invariant sb == Hex(raw[..i])
    {
      assert raw[..i + 1][..i] == raw[..i];
      sb := sb + ByteHex(raw[i]);
    }
    assert raw[..|raw|] == raw;
    hex := sb;
    forall i | 0 <= i < |raw|
      ensures hex[2 * i] == HexDigit(raw[i] as int / 16) && hex[2 * i + 1] == HexDigit(raw[i] as int % 16)
    {
      HexAt(raw, i);
    }
  }

  /** The quoted entity tag built from the hexadecimal digest. */
  function EntityTag(hex: string): (tag: string)
    ensures |tag| == |hex| + 2
    ensures tag[0] == '"' && tag[|tag| - 1] == '"'
    ensures tag[1..|tag| - 1] == hex
  {
    "\"" + hex + "\""
  }

  /**
   * The constructor. A null content hash makes `FormatMd5Bytes` dereference
   * null; that is the `None` result (the caller catches the exception).
   */
  method NewBlobResult(contentType: string, contentHash: Option<seq<byte>>) returns (r: Option<BlobResult>)
    ensures r.None? <==> contentHash.None?
    ensures r.Some? ==> r.value.contentType == contentType
    ensures r.Some? ==> r.value.entityTag == EntityTag(Hex(contentHash.value))
    ensures r.Some? ==> |r.value.entityTag| == 2 * |contentHash.value| + 2
  {
    if contentHash.None? {
      return None;
    }
    var md5 := FormatMd5Bytes(contentHash.value);
    r := Some(BlobResult(contentType, EntityTag(md5)));
  }
}
