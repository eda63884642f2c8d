/** UTF-8 as section 3 of RFC 3629 defines it, and the byte cap of `_truncate_to_bytes`. */
module Utf8 {
  import opened Wrappers

  type Byte = b: int | 0 <= b < 256

  function EncodeChar(c: char): seq<Byte> {
    var v := c as int;
    if v < 0x80 then [v]
    else if v < 0x800 then [0xC0 + v / 0x40, 0x80 + v % 0x40]
    else if v < 0x1_0000 then [0xE0 + v / 0x1000, 0x80 + v / 0x40 % 0x40, 0x80 + v % 0x40]
    else [0xF0 + v / 0x4_0000, 0x80 + v / 0x1000 % 0x40, 0x80 + v / 0x40 % 0x40, 0x80 + v % 0x40]
  }

  function Encode(s: string): seq<Byte> {
    if s == "" then [] else EncodeChar(s[0]) + Encode(s[1..])
  }

  function CharSize(c: char): (n: nat)
    ensures 1 <= n <= 4 && n == |EncodeChar(c)|
  {
    var v := c as int;
    if v < 0x80 then 1 else if v < 0x800 then 2 else if v < 0x1_0000 then 3 else 4
  }

  /** The number of bytes a text takes once encoded. */
  function Size(s: string): nat {
    if s == "" then 0 else CharSize(s[0]) + Size(s[1..])
  }

  predicate Continuation(b: Byte) { 0x80 <= b < 0xC0 }

  /** How many bytes the sequence opened by this lead byte has; 0 for a byte that cannot lead. */
  function LeadSize(b: Byte): nat {
    if b < 0x80 then 1
    else if 0xC2 <= b < 0xE0 then 2
    else if 0xE0 <= b < 0xF0 then 3
    else if 0xF0 <= b < 0xF5 then 4
    else 0
  }

  function Join2(a: int, b: int): int { (a - 0xC0) * 0x40 + (b - 0x80) }

  function Join3(a: int, b: int, c: int): int { (a - 0xE0) * 0x1000 + (b - 0x80) * 0x40 + (c - 0x80) }

  function Join4(a: int, b: int, c: int, d: int): int {
    (a - 0xF0) * 0x4_0000 + (b - 0x80) * 0x1000 + (c - 0x80) * 0x40 + (d - 0x80)
  }

  /** The code point of the first sequence, refusing truncated, overlong, surrogate and out-of-range ones. */
  function DecodeFirst(bytes: seq<Byte>): Option<char>
    requires bytes != []
  {
    var n := LeadSize(bytes[0]);
    if n == 0 || |bytes| < n || exists k :: 1 <= k < n && !Continuation(bytes[k]) then None
    else if n == 1 then Some(bytes[0] as char)
    else if n == 2 then Some(Join2(bytes[0], bytes[1]) as char)
    else if n == 3 then
      var v := Join3(bytes[0], bytes[1], bytes[2]);
      if v < 0x800 || 0xD800 <= v < 0xE000 then None else Some(v as char)
    else
      var v := Join4(bytes[0], bytes[1], bytes[2], bytes[3]);
      if v < 0x1_0000 || 0x11_0000 <= v then None else Some(v as char)
  }

  /** Strict decoding of a whole byte string; None stands for the decoder's error. */
  function Decode(bytes: seq<Byte>): Option<string>
    decreases |bytes|
  {
    if bytes == [] then Some("")
    else match DecodeFirst(bytes)
      case None => None
      case Some(c) =>
        if LeadSize(bytes[0]) == 0 || |bytes| < LeadSize(bytes[0]) then None
        else match Decode(bytes[LeadSize(bytes[0])..])
          case None => None
          case Some(rest) => Some([c] + rest)
  }

  lemma {:induction false} EncodedSize(s: string)
    ensures |Encode(s)| == Size(s)
  {
    if s != "" { EncodedSize(s[1..]); }
  }

  lemma {:induction false} SizeAppend(s: string, t: string)
    ensures Size(s + t) == Size(s) + Size(t)
  {
    if s == "" {
      assert s + t == t;
    } else {
      assert (s + t)[1..] == s[1..] + t;
      SizeAppend(s[1..], t);
    }
  }

  lemma LeadOfEncodedChar(c: char)
    ensures LeadSize(EncodeChar(c)[0]) == CharSize(c)
    ensures forall k :: 1 <= k < CharSize(c) ==> Continuation(EncodeChar(c)[k])
  {
  }

  lemma JoinSplit(v: nat)
    requires v < 0x11_0000
    ensures v < 0x800 ==> Join2(0xC0 + v / 0x40, 0x80 + v % 0x40) == v
    ensures Join3(0xE0 + v / 0x1000, 0x80 + v / 0x40 % 0x40, 0x80 + v % 0x40) == v
    ensures Join4(0xF0 + v / 0x4_0000, 0x80 + v / 0x1000 % 0x40, 0x80 + v / 0x40 % 0x40, 0x80 + v % 0x40) == v
  {
  }

  lemma DecodeEncodedChar(c: char, rest: seq<Byte>)
    ensures DecodeFirst(EncodeChar(c) + rest) == Some(c)
  {
    LeadOfEncodedChar(c);
    JoinSplit(c as int);
    var bytes := EncodeChar(c) + rest;
    assert bytes[0] == EncodeChar(c)[0];
    assert forall k :: 1 <= k < CharSize(c) ==> bytes[k] == EncodeChar(c)[k];
    if CharSize(c) == 2 {
      assert DecodeFirst(bytes) == Some(Join2(bytes[0], bytes[1]) as char);
    } else if CharSize(c) == 3 {
      var v := Join3(bytes[0], bytes[1], bytes[2]);
      assert v == c as int;
    } else if CharSize(c) == 4 {
      var v := Join4(bytes[0], bytes[1], bytes[2], bytes[3]);
      assert v == c as int;
    }
  }

  /** Encoding then decoding gives the text back. */
  lemma {:induction false} RoundTrip(s: string)
    ensures Decode(Encode(s)) == Some(s)
  {
    if s != "" {
      var bytes := Encode(s);
      DecodeEncodedChar(s[0], Encode(s[1..]));
      LeadOfEncodedChar(s[0]);
      assert bytes[CharSize(s[0])..] == Encode(s[1..]);
      RoundTrip(s[1..]);
      assert s == [s[0]] + s[1..];
    }
  }

  /** The code points of s taken from the front while their encoding fits in n bytes. */
  function Fitting(s: string, n: int): string {
    if s == "" || CharSize(s[0]) > n then "" else [s[0]] + Fitting(s[1..], n - CharSize(s[0]))
  }

  /** `Fitting` is the longest prefix that fits: it is a prefix, it fits, and no longer prefix does. */
  lemma {:induction false} FittingIsLongest(s: string, n: int)
    ensures Fitting(s, n) <= s
    ensures n >= 0 ==> Size(Fitting(s, n)) <= n
    ensures forall t: string :: t <= s && |t| > |Fitting(s, n)| ==> Size(t) > n
  {
    if s == "" {
    } else if CharSize(s[0]) > n {
      forall t: string | t <= s && |t| > 0 ensures Size(t) > n { assert t[0] == s[0]; }
    } else {
      var m := n - CharSize(s[0]);
      FittingIsLongest(s[1..], m);
      forall t: string | t <= s && |t| > |Fitting(s, n)| ensures Size(t) > n {
      }
    }
  }

  /** What the cap gives up is less than one code point: at most three bytes stay unused. */
  lemma {:induction false} FittingWastesLittle(s: string, n: nat)
    requires Size(s) > n
    ensures n - Size(Fitting(s, n)) <= 3
    ensures Fitting(s, n) < s
  {
    FittingIsLongest(s, n);
    if CharSize(s[0]) <= n {
      FittingWastesLittle(s[1..], n - CharSize(s[0]));
    }
  }

  lemma {:induction false} FittingWhole(s: string, n: int)
    requires Size(s) <= n
    ensures Fitting(s, n) == s
  {
    if s != "" { FittingWhole(s[1..], n - CharSize(s[0])); }
  }

  /** Cutting an encoding anywhere but at a code-point boundary leaves bytes that do not decode. */
  lemma {:induction false} CutDecodes(s: string, n: nat, j: nat)
    requires Size(Fitting(s, n)) <= j <= n && j <= |Encode(s)|
    ensures Decode(Encode(s)[..j]) == if j == Size(Fitting(s, n)) then Some(Fitting(s, n)) else None
  {
    var bytes := Encode(s)[..j];
    if j == 0 {
      FittingIsLongest(s, n);
      assert bytes == [];
    } else if j < CharSize(s[0]) {
      LeadOfEncodedChar(s[0]);
      assert bytes[0] == EncodeChar(s[0])[0];
    } else {
      var m := CharSize(s[0]);
      assert bytes == EncodeChar(s[0]) + Encode(s[1..])[..j - m];
      DecodeEncodedChar(s[0], Encode(s[1..])[..j - m]);
      LeadOfEncodedChar(s[0]);
      assert bytes[m..] == Encode(s[1..])[..j - m];
      CutDecodes(s[1..], n - m, j - m);
    }
  }

  /** The cap as the store applies it: cut the bytes, then drop one byte at a time until they decode. */
  method TruncateToBytes(content: string, limit: int) returns (kept: string, truncated: bool)
    ensures kept == Fitting(content, limit)
    ensures truncated <==> Size(content) > limit
  {
    var encoded := Encode(content);
    EncodedSize(content);
    if |encoded| <= limit {
      FittingWhole(content, limit);
      return content, false;
    }
    var cap := if limit < 0 then 0 else limit;
    var bytes := encoded[..cap];
    FittingIsLongest(content, cap);
    ghost var best := Fitting(content, cap);
    while bytes != []
      invariant |bytes| <= cap && bytes == encoded[..|bytes|]
      invariant Size(best) <= |bytes|
      decreases |bytes|
    {
      CutDecodes(content, cap, |bytes|);
      var decoded := Decode(bytes);
      if decoded.Some? {
        assert limit >= 0 || best == "";
        return decoded.value, true;
      }
      bytes := bytes[..|bytes| - 1];
    }
    assert Size(best) == 0;
    return "", true;
  }

  /** The back-off loop's cost: at most three bytes are dropped before the rest decodes. */
  lemma BackOffIsShort(content: string, limit: nat)
    requires Size(content) > limit
    ensures |Encode(content)| > limit
    ensures exists boundary | limit - 3 <= boundary <= limit && 0 <= boundary ::
      Decode(Encode(content)[..boundary]) == Some(Fitting(content, limit))
  {
    FittingIsLongest(content, limit);
    FittingWastesLittle(content, limit);
    EncodedSize(content);
    CutDecodes(content, limit, Size(Fitting(content, limit)));
  }
}
