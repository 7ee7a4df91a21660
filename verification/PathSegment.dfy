/** Percent-encoding of a model-supplied id as one URL path segment
    (section 2.1 of RFC 3986). */
module PathSegment {
  import opened Wrappers

  type Byte = x: int | 0 <= x < 256

  /** The letters, the digits, `.`, `_` and `-`. */
  predicate IsSafe(c: char) {
    'A' <= c <= 'Z' || 'a' <= c <= 'z' || '0' <= c <= '9' || c == '.' || c == '_' || c == '-'
  }

  function HexDigit(n: nat): char
    requires n < 16
  {
    "0123456789ABCDEF"[n]
  }

  function EncodeByte(b: Byte): string {
    if IsSafe(b as char) then [b as char] else ['%', HexDigit(b / 16), HexDigit(b % 16)]
  }

  function Encoded(id: seq<Byte>): string {
    if id == [] then "" else EncodeByte(id[0]) + Encoded(id[1..])
  }

  method EncodePathSegment(id: seq<Byte>) returns (out: string)
    ensures out == Encoded(id)
  {
    hide Encoded, HexDigit, IsSafe;
    out := "";
    var k := 0;
    assert id[0..] == id;
    NothingEncoded();
    while k < |id|
      invariant 0 <= k <= |id|
      invariant out + Encoded(id[k..]) == Encoded(id)
    {
      var b := id[k];
      EncodedFrom(id, k);
      ghost var rest := Encoded(id[k + 1..]);
      assert out + (EncodeByte(b) + rest) == out + EncodeByte(b) + rest;
      if IsSafe(b as char) {
        out := out + [b as char];
      } else {
        out := out + ['%', HexDigit(b / 16), HexDigit(b % 16)];
      }
      k := k + 1;
    }
    assert id[k..] == [];
  }

  lemma NothingEncoded()
    ensures Encoded([]) == ""
  {
  }

  lemma EncodedFrom(id: seq<Byte>, k: nat)
    requires k < |id|
    ensures Encoded(id[k..]) == EncodeByte(id[k]) + Encoded(id[k + 1..])
  {
    hide EncodeByte;
    assert id[k..][1..] == id[k + 1..];
  }

  // ---- Decoding, as a receiver does ----------------------------------------

  /** Either case of hexadecimal digit, as RFC 3986 has it. */
  function HexValue(c: char): Option<nat> {
    if '0' <= c <= '9' then Some(c as int - '0' as int)
    else if 'A' <= c <= 'F' then Some(c as int - 'A' as int + 10)
    else if 'a' <= c <= 'f' then Some(c as int - 'a' as int + 10)
    else None
  }

  lemma HexValueOfDigit(n: nat)
    requires n < 16
    ensures HexValue(HexDigit(n)) == Some(n)
  {
  }

  function Decoded(s: string): Option<seq<Byte>>
    decreases |s|
  {
    if s == "" then Some([])
    else if s[0] == '%' then
      if |s| < 3 || HexValue(s[1]).None? || HexValue(s[2]).None? then None
      else
        HexIsSmall(s[1]);
        HexIsSmall(s[2]);
        Cons(16 * HexValue(s[1]).value + HexValue(s[2]).value, Decoded(s[3..]))
    else if s[0] as int >= 256 then None
    else Cons(s[0] as int, Decoded(s[1..]))
  }

  lemma HexIsSmall(c: char)
    ensures HexValue(c).Some? ==> HexValue(c).value < 16
  {
  }

  function Cons(b: Byte, rest: Option<seq<Byte>>): Option<seq<Byte>> {
    if rest.None? then None else Some([b] + rest.value)
  }

  lemma DecodeStep(b: Byte, rest: string)
    ensures Decoded(EncodeByte(b) + rest) == Cons(b, Decoded(rest))
  {
    var s := EncodeByte(b) + rest;
    if IsSafe(b as char) {
      assert s[0] == b as char && s[1..] == rest;
    } else {
      HexValueOfDigit(b / 16);
      HexValueOfDigit(b % 16);
      assert s[0] == '%' && s[1] == HexDigit(b / 16) && s[2] == HexDigit(b % 16) && s[3..] == rest;
    }
  }

  /** Decoding gives every id back. */
  lemma {:induction false} RoundTrip(id: seq<Byte>)
    ensures Decoded(Encoded(id)) == Some(id)
  {
    if id != [] {
      RoundTrip(id[1..]);
      DecodeStep(id[0], Encoded(id[1..]));
      assert [id[0]] + id[1..] == id;
    }
  }

  lemma EncodingIsInjective(x: seq<Byte>, y: seq<Byte>)
    ensures Encoded(x) == Encoded(y) <==> x == y
  {
    RoundTrip(x);
    RoundTrip(y);
  }

  // ---- What an encoded segment looks like ----------------------------------

  predicate IsUpperHex(c: char) {
    '0' <= c <= '9' || 'A' <= c <= 'F'
  }

  /** Safe characters and `%XX` triples only: no separator, no query, no escape
      that is cut short. */
  predicate IsSegment(s: string)
    decreases |s|
  {
    || s == ""
    || (IsSafe(s[0]) && IsSegment(s[1..]))
    || (|s| >= 3 && s[0] == '%' && IsUpperHex(s[1]) && IsUpperHex(s[2]) && IsSegment(s[3..]))
  }

  lemma {:induction false} EncodedIsSegment(id: seq<Byte>)
    ensures IsSegment(Encoded(id))
  {
    if id != [] {
      EncodedIsSegment(id[1..]);
      var s, rest := Encoded(id), Encoded(id[1..]);
      var b := id[0];
      if IsSafe(b as char) {
        assert s[0] == b as char && s[1..] == rest;
      } else {
        DigitIsUpperHex(b / 16);
        DigitIsUpperHex(b % 16);
        assert s[0] == '%' && s[1] == HexDigit(b / 16) && s[2] == HexDigit(b % 16) && s[3..] == rest;
      }
    }
  }

  lemma DigitIsUpperHex(n: nat)
    requires n < 16
    ensures IsUpperHex(HexDigit(n))
  {
  }

  /** No character of a segment can end it or start a query or a fragment. */
  lemma {:induction false} SegmentsSmuggleNothing(s: string)
    requires IsSegment(s)
    ensures forall c | c in s :: IsSafe(c) || c == '%'
    ensures '/' !in s && '?' !in s && '#' !in s && '&' !in s
    decreases |s|
  {
    if s != "" {
      if IsSafe(s[0]) {
        SegmentsSmuggleNothing(s[1..]);
        assert s == [s[0]] + s[1..];
      } else {
        SegmentsSmuggleNothing(s[3..]);
        assert s == [s[0], s[1], s[2]] + s[3..];
      }
    }
  }

  function AsText(id: seq<Byte>): string {
    seq(|id|, i requires 0 <= i < |id| => id[i] as char)
  }

  predicate AllSafe(s: string) {
    forall c | c in s :: IsSafe(c)
  }

  lemma AllSafeCons(id: seq<Byte>)
    requires id != []
    ensures AsText(id) == [id[0] as char] + AsText(id[1..])
    ensures AllSafe(AsText(id)) <==> IsSafe(id[0] as char) && AllSafe(AsText(id[1..]))
  {
    var s, t := AsText(id), AsText(id[1..]);
    assert s == [id[0] as char] + t;
    hide AsText, IsSafe;
    assert forall c :: c in s <==> c == id[0] as char || c in t;
  }

  /** An encoded id is no shorter than the id, and the ids that come out as they
      are, or just as long, are exactly those of safe characters. */
  lemma {:induction false} FixedPointsAreSafe(id: seq<Byte>)
    ensures |Encoded(id)| >= |id|
    ensures Encoded(id) == AsText(id) <==> AllSafe(AsText(id))
    ensures |Encoded(id)| == |id| <==> AllSafe(AsText(id))
  {
    hide AllSafe, IsSafe;
    if id == [] {
      NothingIsSafe();
    } else {
      FixedPointsAreSafe(id[1..]);
      AllSafeCons(id);
      EncodedCons(id);
      assert |AsText(id)| == |id|;
      if IsSafe(id[0] as char) {
        SameTail(id[0] as char, Encoded(id[1..]), AsText(id[1..]));
      }
    }
  }

  lemma NothingIsSafe()
    ensures Encoded([]) == AsText([]) == "" && AllSafe("")
  {
  }

  lemma EncodedCons(id: seq<Byte>)
    requires id != []
    ensures IsSafe(id[0] as char) ==> Encoded(id) == [id[0] as char] + Encoded(id[1..])
    ensures !IsSafe(id[0] as char) ==> |Encoded(id)| == 3 + |Encoded(id[1..])|
  {
  }

  lemma SameTail(c: char, s: string, t: string)
    ensures [c] + s == [c] + t <==> s == t
  {
    assert ([c] + s)[1..] == s && ([c] + t)[1..] == t;
  }
}
