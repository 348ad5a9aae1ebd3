/** The response-cache key of index.js: the tag, a colon, and the first 50 base64 characters of the content's UTF-8 bytes. */
module CacheKey {
  import Common
  import Utf8
  import Base64

  /** At most the first `n` characters, as `String.prototype.slice(0, n)` gives them. */
  function Prefix(s: string, n: nat): (r: string)
    ensures |r| == if |s| <= n then |s| else n
    ensures r == s[..|r|]
  {
    if |s| <= n then s else s[..n]
  }

  /** `getCacheKey(type, content)`. */
  function GetCacheKey(kind: string, content: string): (key: string)
    ensures |kind| + 1 <= |key| <= |kind| + 51
    ensures key[..|kind| + 1] == kind + ":"
  {
    kind + ":" + Prefix(Base64.Encode(Utf8.Encode(content)), 50)
  }

  /** Byte strings that agree on their first 39 bytes (13 base64 quanta) agree on their first 50 base64 characters. */
  lemma SharedPrefixSameDigits(ea: seq<Common.Byte>, eb: seq<Common.Byte>)
    requires |ea| >= 39 && |eb| >= 39 && ea[..39] == eb[..39]
    ensures Prefix(Base64.Encode(ea), 50) == Prefix(Base64.Encode(eb), 50)
  {
    var head := ea[..39];
    SharedHeadSamePrefix(head, ea);
    SharedHeadSamePrefix(head, eb);
  }

  /** Encoding bytes that start with `head` (of 39 bytes) begins with the first 50 characters of `head`'s encoding. */
  lemma SharedHeadSamePrefix(head: seq<Common.Byte>, e: seq<Common.Byte>)
    requires |head| == 39 && |e| >= 39 && e[..39] == head
    ensures Prefix(Base64.Encode(e), 50) == Base64.Encode(head)[..50]
  {
    var rest := e[39..];
    assert e == head + rest;
    Base64.EncodeAppend(head, rest);
    var h, r := Base64.Encode(head), Base64.Encode(rest);
    assert (|head| + 2) / 3 == 13;
    assert Base64.Encode(e) == h + r;
    assert (h + r)[..50] == h[..50];
  }

  /** Two contents whose UTF-8 encodings agree on their first 39 bytes share a key. */
  lemma SharedPrefixSameKey(kind: string, a: string, b: string)
    requires |Utf8.Encode(a)| >= 39 && |Utf8.Encode(b)| >= 39
    requires Utf8.Encode(a)[..39] == Utf8.Encode(b)[..39]
    ensures GetCacheKey(kind, a) == GetCacheKey(kind, b)
  {
    SharedPrefixSameDigits(Utf8.Encode(a), Utf8.Encode(b));
  }

  /** Contents of at most 36 UTF-8 bytes are encoded in full, so their keys never collide. */
  lemma ShortContentsDistinctKeys(kind: string, a: string, b: string)
    requires |Utf8.Encode(a)| <= 36 && |Utf8.Encode(b)| <= 36
    requires GetCacheKey(kind, a) == GetCacheKey(kind, b)
    ensures a == b
  {
    var ea, eb := Base64.Encode(Utf8.Encode(a)), Base64.Encode(Utf8.Encode(b));
    assert Prefix(ea, 50) == ea && Prefix(eb, 50) == eb;
    var ka := GetCacheKey(kind, a);
    assert ea == ka[|kind| + 1..] == eb;
    Base64.EncodeInjective(Utf8.Encode(a), Utf8.Encode(b));
    Utf8.EncodeInjective(a, b);
  }

  /** Tags without a colon (such as "text" and "voice") never share a key. */
  lemma TagsSeparateKeys(kind1: string, kind2: string, a: string, b: string)
    requires ':' !in kind1 && ':' !in kind2
    requires GetCacheKey(kind1, a) == GetCacheKey(kind2, b)
    ensures kind1 == kind2
  {
    var k := GetCacheKey(kind1, a);
    assert forall i :: 0 <= i < |kind1| ==> k[i] == kind1[i];
    assert forall i :: 0 <= i < |kind2| ==> k[i] == kind2[i];
    assert k[|kind1|] == ':' && k[|kind2|] == ':';
    assert |kind1| == |kind2|;
    assert kind1 == k[..|kind1|] && kind2 == k[..|kind2|];
  }
}
